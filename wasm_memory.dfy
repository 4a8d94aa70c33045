/**
  The allocation facade with its process-wide statics as the fields of one
  object. Every method updates the fields as the runtime does and appends
  its backend requests and diagnostics to a ghost trace; each is proved to
  behave as the function of the same name in `MemoryModel`, where the
  properties of the facade are stated.
 */
module WasmMemory {
  import opened MemoryModel

  class Runtime {
    var memoryMode: MemoryMode
    var poolAllocator: Ptr
    var globalPoolSize: uint32
    var allocatorUserData: Ptr
    var mallocFunc: Ptr
    var reallocFunc: Ptr
    var freeFunc: Ptr

    /** Whether leak verification is built in (BH_ENABLE_GC_VERIFY). */
    const gcVerify: bool

    /** Every backend request and diagnostic so far, oldest first. */
    ghost var trace: seq<Event>

    /** The current values of the statics. */
    function Statics(): State
      reads this
    {
      State(memoryMode, poolAllocator, globalPoolSize, allocatorUserData,
            mallocFunc, reallocFunc, freeFunc)
    }

    /** The call returned `r`, left the statics as `o` says and logged its events. */
    twostate predicate Follows<R>(o: Outcome<R>, r: R)
      reads this
    {
      r == o.result && Statics() == o.state && trace == old(trace) + o.events
    }

    /** Process start: the statics are zero-initialised. */
    constructor (gcVerify: bool)
      ensures Statics() == Initial && trace == [] && this.gcVerify == gcVerify
      ensures Valid(Statics())
    {
      memoryMode := ModeUnknown;
      poolAllocator := NULL;
      globalPoolSize := 0;
      allocatorUserData := NULL;
      mallocFunc := NULL;
      reallocFunc := NULL;
      freeFunc := NULL;
      this.gcVerify := gcVerify;
      trace := [];
    }

    /** `created` is what the pool allocator's create returns for `mem` and `bytes`. */
    method InitWithPool(mem: Ptr, bytes: uint32, created: Ptr) returns (ok: bool)
      modifies this
      ensures Follows(MemoryModel.InitWithPool(old(Statics()), mem, bytes, created), ok)
    {
      trace := trace + [PoolCreate(mem, bytes)];
      var allocator := created;
      if allocator != NULL {
        memoryMode := ModePool;
        poolAllocator := allocator;
        globalPoolSize := bytes;
        return true;
      }
      trace := trace + [Log(ErrorInitPool(mem, bytes))];
      return false;
    }

    method InitWithAllocator(userData: Ptr, malloc: Ptr, realloc: Ptr, free: Ptr) returns (ok: bool)
      modifies this
      ensures Follows(MemoryModel.InitWithAllocator(old(Statics()), userData, malloc, realloc, free), ok)
    {
      if malloc != NULL && free != NULL && malloc != free {
        memoryMode := ModeAllocator;
        allocatorUserData := userData;
        mallocFunc := malloc;
        reallocFunc := realloc;
        freeFunc := free;
        return true;
      }
      trace := trace + [Log(ErrorInitAllocator(userData, malloc, realloc, free))];
      return false;
    }

    method MemoryInit(allocType: AllocType, option: MemAllocOption, created: Ptr) returns (ok: bool)
      modifies this
      ensures Follows(MemoryModel.MemoryInit(old(Statics()), allocType, option, created), ok)
    {
      if allocType.AllocWithPool? {
        ok := InitWithPool(option.heapBuf, option.heapSize, created);
      } else if allocType.AllocWithAllocator? {
        ok := InitWithAllocator(option.userData, option.mallocFunc, option.reallocFunc, option.freeFunc);
      } else if allocType.AllocWithSystemAllocator? {
        memoryMode := ModeSystemAllocator;
        ok := true;
      } else {
        ok := false;
      }
    }

    /** `status` is what the pool allocator's destroy returns. */
    method MemoryDestroy(status: int) returns (outcome: DestroyOutcome)
      modifies this
      ensures Follows(MemoryModel.MemoryDestroy(old(Statics()), gcVerify, status), outcome)
    {
      if memoryMode == ModePool {
        trace := trace + [PoolDestroy(poolAllocator)];
        if gcVerify && status != 0 {
          return LeakExit;
        }
      }
      memoryMode := ModeUnknown;
      return Completed;
    }

    method PoolSize() returns (size: uint32)
      ensures memoryMode == ModePool ==> size == globalPoolSize
      ensures memoryMode != ModePool ==> size == UINT32_MAX
      ensures size == MemoryPoolSize(Statics())
    {
      if memoryMode == ModePool {
        size := globalPoolSize;
      } else {
        size := UINT32_MAX;
      }
    }

    /** `reply` is what the selected backend returns. */
    method MallocInternal(size: uint32, reply: Ptr) returns (p: Ptr)
      modifies this`trace
      ensures Follows(MemoryModel.MallocInternal(old(Statics()), size, reply), p)
    {
      if memoryMode == ModeUnknown {
        trace := trace + [Log(WarnMallocUninit)];
        p := NULL;
      } else if memoryMode == ModePool {
        trace := trace + [PoolMalloc(poolAllocator, size)];
        p := reply;
      } else if memoryMode == ModeAllocator {
        trace := trace + [CbMalloc(mallocFunc, allocatorUserData, size)];
        p := reply;
      } else {
        trace := trace + [OsMalloc(size)];
        p := reply;
      }
    }

    method Malloc(size: uint32, reply: Ptr) returns (p: Ptr)
      modifies this`trace
      ensures Follows(MemoryModel.Malloc(old(Statics()), size, reply), p)
    {
      var n := size;
      if n == 0 {
        trace := trace + [Log(WarnMallocZero)];
        n := 1;
      }
      p := MallocInternal(n, reply);
    }

    method ReallocInternal(ptr: Ptr, size: uint32, reply: Ptr) returns (p: Ptr)
      modifies this`trace
      ensures Follows(MemoryModel.Realloc(old(Statics()), ptr, size, reply), p)
    {
      if memoryMode == ModeUnknown {
        trace := trace + [Log(WarnReallocUninit)];
        p := NULL;
      } else if memoryMode == ModePool {
        trace := trace + [PoolRealloc(poolAllocator, ptr, size)];
        p := reply;
      } else if memoryMode == ModeAllocator {
        if reallocFunc != NULL {
          trace := trace + [CbRealloc(reallocFunc, allocatorUserData, ptr, size)];
          p := reply;
        } else {
          p := NULL;
        }
      } else {
        trace := trace + [OsRealloc(ptr, size)];
        p := reply;
      }
    }

    method Realloc(ptr: Ptr, size: uint32, reply: Ptr) returns (p: Ptr)
      modifies this`trace
      ensures Follows(MemoryModel.Realloc(old(Statics()), ptr, size, reply), p)
    {
      p := ReallocInternal(ptr, size, reply);
    }

    method FreeInternal(ptr: Ptr)
      modifies this`trace
      ensures Follows(MemoryModel.Free(old(Statics()), ptr), ())
    {
      if ptr == NULL {
        trace := trace + [Log(WarnFreeNull)];
        return;
      }
      if memoryMode == ModeUnknown {
        trace := trace + [Log(WarnFreeUninit)];
      } else if memoryMode == ModePool {
        trace := trace + [PoolFree(poolAllocator, ptr)];
      } else if memoryMode == ModeAllocator {
        trace := trace + [CbFree(freeFunc, allocatorUserData, ptr)];
      } else {
        trace := trace + [OsFree(ptr)];
      }
    }

    method Free(ptr: Ptr)
      modifies this`trace
      ensures Follows(MemoryModel.Free(old(Statics()), ptr), ())
    {
      FreeInternal(ptr);
    }

    /** `reply` is what the pool allocator's introspection returns. */
    method GetMemAllocInfo(reply: bool) returns (available: bool)
      modifies this`trace
      ensures Follows(MemoryModel.GetMemAllocInfo(old(Statics()), reply), available)
    {
      if memoryMode == ModePool {
        trace := trace + [PoolAllocInfo(poolAllocator)];
        return reply;
      }
      return false;
    }
  }

  /**
    A pool lifecycle seen from the runtime: initialise over a buffer the pool
    allocator accepts, allocate, reallocate, free, destroy; once destroyed,
    allocation fails and the pool size is the sentinel again.
   */
  method PoolLifecycle(buf: Ptr, bytes: uint32, created: Ptr, p: Ptr, q: Ptr, r: Ptr)
    returns (ok: bool, size: uint32, first: Ptr, moved: Ptr, late: Ptr, sizeAfter: uint32)
    requires created != NULL
    ensures ok && size == bytes && first == p && moved == q
    ensures late == NULL && sizeAfter == UINT32_MAX
  {
    var rt := new Runtime(false);
    ok := rt.MemoryInit(AllocWithPool, MemAllocOption(buf, bytes, NULL, NULL, NULL, NULL), created);
    size := rt.PoolSize();
    first := rt.Malloc(100, p);
    moved := rt.Realloc(first, 200, q);
    rt.Free(moved);
    var outcome := rt.MemoryDestroy(0);
    late := rt.Malloc(100, r);
    sizeAfter := rt.PoolSize();
  }
}
