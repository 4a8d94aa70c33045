/**
  The allocation facade of the runtime's memory layer, modelled on values.

  `State` holds the process-wide statics of the facade; every operation is a
  function from the state before the call (and the replies of the foreign
  backends, which are inputs here) to an `Outcome`: the state after the call,
  the value returned to the caller, and the requests forwarded to backends
  and diagnostics logged, in order.

  Pointers, pool handles and function pointers are opaque ids; 0 is NULL.
 */
module MemoryModel {

  const UINT32_MAX: int := 0xFFFF_FFFF

  /** C `unsigned int`. */
  type uint32 = x: int | 0 <= x <= UINT32_MAX

  /** An address, a pool handle or a function pointer; NULL is 0. */
  type Ptr = nat

  const NULL: Ptr := 0

  datatype MemoryMode = ModeUnknown | ModePool | ModeAllocator | ModeSystemAllocator

  /**
    The selector passed to initialisation; `AllocOther` stands for every value
    of the selector other than the three named ones.
   */
  datatype AllocType =
    | AllocWithPool
    | AllocWithAllocator
    | AllocWithSystemAllocator
    | AllocOther

  /**
    The option union of initialisation; each selector reads only its own
    members, so the union is a record of both.
   */
  datatype MemAllocOption = MemAllocOption(
    heapBuf: Ptr, heapSize: uint32,
    userData: Ptr, mallocFunc: Ptr, reallocFunc: Ptr, freeFunc: Ptr)

  /** The statics of the facade (user-data build). */
  datatype State = State(
    memoryMode: MemoryMode,
    poolAllocator: Ptr,
    globalPoolSize: uint32,
    allocatorUserData: Ptr,
    mallocFunc: Ptr,
    reallocFunc: Ptr,
    freeFunc: Ptr)

  /** The statics at process start: all zero. */
  const Initial: State := State(ModeUnknown, NULL, 0, NULL, NULL, NULL, NULL)

  datatype Diagnostic =
    | ErrorInitPool(mem: Ptr, bytes: uint32)
    | ErrorInitAllocator(userData: Ptr, mallocFunc: Ptr, reallocFunc: Ptr, freeFunc: Ptr)
    | WarnMallocZero
    | WarnMallocUninit
    | WarnReallocUninit
    | WarnFreeNull
    | WarnFreeUninit

  /** A request forwarded to a backend, or a diagnostic sent to the log. */
  datatype Event =
    | PoolCreate(mem: Ptr, bytes: uint32)
    | PoolMalloc(pool: Ptr, size: uint32)
    | PoolRealloc(pool: Ptr, ptr: Ptr, size: uint32)
    | PoolFree(pool: Ptr, ptr: Ptr)
    | PoolDestroy(pool: Ptr)
    | PoolAllocInfo(pool: Ptr)
    | CbMalloc(func: Ptr, userData: Ptr, size: uint32)
    | CbRealloc(func: Ptr, userData: Ptr, ptr: Ptr, size: uint32)
    | CbFree(func: Ptr, userData: Ptr, ptr: Ptr)
    | OsMalloc(size: uint32)
    | OsRealloc(ptr: Ptr, size: uint32)
    | OsFree(ptr: Ptr)
    | Log(diagnostic: Diagnostic)

  datatype Outcome<R> = Outcome(state: State, result: R, events: seq<Event>)

  /** What destroy ends in: a reset state, or the process exit on a detected leak. */
  datatype DestroyOutcome = Completed | LeakExit

  /** The backend requests among `events`, in order. */
  function BackendCalls(events: seq<Event>): seq<Event>
  {
    if events == [] then []
    else (if events[0].Log? then [] else [events[0]]) + BackendCalls(events[1..])
  }

  /**
    The invariant the facade keeps: a pool mode has a pool, and a callback
    mode has two distinct non-NULL malloc and free functions.
   */
  predicate Valid(s: State)
  {
    && (s.memoryMode == ModePool ==> s.poolAllocator != NULL)
    && (s.memoryMode == ModeAllocator ==>
          s.mallocFunc != NULL && s.freeFunc != NULL && s.mallocFunc != s.freeFunc)
  }

  /**
    `e` goes to the backend that `s` selects, through the handle or the
    function pointer (and the user data) that `s` stores for that request.
   */
  predicate RoutedTo(s: State, e: Event)
  {
    match e
    case PoolMalloc(pool, _) => s.memoryMode == ModePool && pool == s.poolAllocator
    case PoolRealloc(pool, _, _) => s.memoryMode == ModePool && pool == s.poolAllocator
    case PoolFree(pool, _) => s.memoryMode == ModePool && pool == s.poolAllocator
    case PoolDestroy(pool) => s.memoryMode == ModePool && pool == s.poolAllocator
    case PoolAllocInfo(pool) => s.memoryMode == ModePool && pool == s.poolAllocator
    case CbMalloc(f, ud, _) =>
      s.memoryMode == ModeAllocator && f == s.mallocFunc && ud == s.allocatorUserData
    case CbRealloc(f, ud, _, _) =>
      s.memoryMode == ModeAllocator && f == s.reallocFunc && ud == s.allocatorUserData
    case CbFree(f, ud, _) =>
      s.memoryMode == ModeAllocator && f == s.freeFunc && ud == s.allocatorUserData
    case OsMalloc(_) => s.memoryMode == ModeSystemAllocator
    case OsRealloc(_, _) => s.memoryMode == ModeSystemAllocator
    case OsFree(_) => s.memoryMode == ModeSystemAllocator
    case PoolCreate(_, _) => false
    case Log(_) => false
  }

  predicate IsMallocOf(e: Event, size: uint32)
  {
    (e.PoolMalloc? || e.CbMalloc? || e.OsMalloc?) && e.size == size
  }

  predicate IsReallocOf(e: Event, ptr: Ptr, size: uint32)
  {
    (e.PoolRealloc? || e.CbRealloc? || e.OsRealloc?) && e.ptr == ptr && e.size == size
  }

  predicate IsFreeOf(e: Event, ptr: Ptr)
  {
    (e.PoolFree? || e.CbFree? || e.OsFree?) && e.ptr == ptr
  }

  /**
    What no backend ever receives from the facade: a NULL pool handle, a NULL
    callback, a zero-size malloc, a free of NULL.
   */
  predicate WellFormedCall(e: Event)
  {
    match e
    case PoolCreate(_, _) => true
    case PoolMalloc(pool, size) => pool != NULL && size != 0
    case PoolRealloc(pool, _, _) => pool != NULL
    case PoolFree(pool, ptr) => pool != NULL && ptr != NULL
    case PoolDestroy(pool) => pool != NULL
    case PoolAllocInfo(pool) => pool != NULL
    case CbMalloc(f, _, size) => f != NULL && size != 0
    case CbRealloc(f, _, _, _) => f != NULL
    case CbFree(f, _, ptr) => f != NULL && ptr != NULL
    case OsMalloc(size) => size != 0
    case OsRealloc(_, _) => true
    case OsFree(ptr) => ptr != NULL
    case Log(_) => true
  }

  predicate AllWellFormed(events: seq<Event>)
  {
    forall i | 0 <= i < |events| :: WellFormedCall(events[i])
  }

  /**
    Initialisation over a caller's buffer. `created` is what the pool
    allocator's create returns for (`mem`, `bytes`): a handle, or NULL when
    it cannot build a pool there.
   */
  function InitWithPool(s: State, mem: Ptr, bytes: uint32, created: Ptr): (o: Outcome<bool>)
    ensures o.result <==> created != NULL
    ensures o.result ==> o.state.memoryMode == ModePool && o.state.poolAllocator == created
    ensures o.result ==> o.state == s.(memoryMode := ModePool, poolAllocator := created, globalPoolSize := bytes)
    ensures o.result ==> MemoryPoolSize(o.state) == bytes
    ensures !o.result ==>
      o.state == s && o.events == [PoolCreate(mem, bytes), Log(ErrorInitPool(mem, bytes))]
    ensures BackendCalls(o.events) == [PoolCreate(mem, bytes)]
    ensures o.result ==> Valid(o.state)
    ensures Valid(s) ==> Valid(o.state)
    ensures AllWellFormed(o.events)
  {
    if created != NULL then
      Outcome(s.(memoryMode := ModePool, poolAllocator := created, globalPoolSize := bytes),
              true, [PoolCreate(mem, bytes)])
    else
      BackendCallsAppend([PoolCreate(mem, bytes)], [Log(ErrorInitPool(mem, bytes))]);
      Outcome(s, false, [PoolCreate(mem, bytes)] + [Log(ErrorInitPool(mem, bytes))])
  }

  /**
    Initialisation with host callbacks. The reallocate function may be NULL
    and is compared with nothing.
   */
  function InitWithAllocator(s: State, userData: Ptr, mallocFunc: Ptr, reallocFunc: Ptr, freeFunc: Ptr)
    : (o: Outcome<bool>)
    ensures o.result <==> mallocFunc != NULL && freeFunc != NULL && mallocFunc != freeFunc
    ensures o.result ==> o.state == s.(memoryMode := ModeAllocator, allocatorUserData := userData,
                                       mallocFunc := mallocFunc, reallocFunc := reallocFunc, freeFunc := freeFunc)
    ensures o.result ==> o.events == []
    ensures !o.result ==>
      o.state == s && o.events == [Log(ErrorInitAllocator(userData, mallocFunc, reallocFunc, freeFunc))]
    ensures o.result ==> Valid(o.state)
    ensures Valid(s) ==> Valid(o.state)
  {
    if mallocFunc != NULL && freeFunc != NULL && mallocFunc != freeFunc then
      Outcome(s.(memoryMode := ModeAllocator, allocatorUserData := userData,
                 mallocFunc := mallocFunc, reallocFunc := reallocFunc, freeFunc := freeFunc),
              true, [])
    else
      Outcome(s, false, [Log(ErrorInitAllocator(userData, mallocFunc, reallocFunc, freeFunc))])
  }

  /**
    Public initialisation: dispatch on the selector. `created` is the pool
    allocator's reply, consulted only for the pool selector.
   */
  function MemoryInit(s: State, allocType: AllocType, option: MemAllocOption, created: Ptr)
    : (o: Outcome<bool>)
    ensures allocType.AllocWithPool? ==> (o.result <==> created != NULL)
    ensures allocType.AllocWithAllocator? ==>
      (o.result <==> option.mallocFunc != NULL && option.freeFunc != NULL && option.mallocFunc != option.freeFunc)
    ensures allocType.AllocWithSystemAllocator? ==>
      o.result && o.state == s.(memoryMode := ModeSystemAllocator) && o.events == []
    ensures allocType.AllocOther? ==> !o.result && o.state == s && o.events == []
    ensures !o.result ==> o.state == s
    ensures o.result && allocType.AllocWithPool? ==>
      o.state == s.(memoryMode := ModePool, poolAllocator := created, globalPoolSize := option.heapSize)
      && MemoryPoolSize(o.state) == option.heapSize
    ensures o.result && allocType.AllocWithAllocator? ==>
      o.state == s.(memoryMode := ModeAllocator, allocatorUserData := option.userData,
                    mallocFunc := option.mallocFunc, reallocFunc := option.reallocFunc,
                    freeFunc := option.freeFunc)
    ensures BackendCalls(o.events) == (if allocType.AllocWithPool? then [PoolCreate(option.heapBuf, option.heapSize)] else [])
    ensures o.result ==> Valid(o.state)
    ensures Valid(s) ==> Valid(o.state)
    ensures AllWellFormed(o.events)
  {
    match allocType
    case AllocWithPool =>
      InitWithPool(s, option.heapBuf, option.heapSize, created)
    case AllocWithAllocator =>
      InitWithAllocator(s, option.userData, option.mallocFunc, option.reallocFunc, option.freeFunc)
    case AllocWithSystemAllocator =>
      Outcome(s.(memoryMode := ModeSystemAllocator), true, [])
    case AllocOther =>
      Outcome(s, false, [])
  }

  /**
    Teardown. `status` is what the pool allocator's destroy returns; with
    leak verification built in (`gcVerify`) a nonzero status exits the
    process before the mode is reset.
   */
  function MemoryDestroy(s: State, gcVerify: bool, status: int): (o: Outcome<DestroyOutcome>)
    ensures o.result == LeakExit <==> gcVerify && s.memoryMode == ModePool && status != 0
    ensures o.result == Completed ==> o.state == s.(memoryMode := ModeUnknown)
    ensures o.result == Completed ==> MemoryPoolSize(o.state) == UINT32_MAX
    ensures o.result == LeakExit ==> o.state == s
    ensures BackendCalls(o.events) == (if s.memoryMode == ModePool then [PoolDestroy(s.poolAllocator)] else [])
    ensures forall i | 0 <= i < |o.events| :: RoutedTo(s, o.events[i])
    ensures Valid(s) ==> Valid(o.state) && AllWellFormed(o.events)
  {
    var events := if s.memoryMode == ModePool then [PoolDestroy(s.poolAllocator)] else [];
    if s.memoryMode == ModePool && gcVerify && status != 0 then
      Outcome(s, LeakExit, events)
    else
      Outcome(s.(memoryMode := ModeUnknown), Completed, events)
  }

  /** The configured pool size, or the sentinel UINT32_MAX outside pool mode. */
  function MemoryPoolSize(s: State): uint32
  {
    if s.memoryMode == ModePool then s.globalPoolSize else UINT32_MAX
  }

  /** Allocation after the zero-size bump; `reply` is what the selected backend returns. */
  function MallocInternal(s: State, size: uint32, reply: Ptr): (o: Outcome<Ptr>)
    ensures o.state == s
    ensures s.memoryMode == ModeUnknown ==>
      o.result == NULL && o.events == [Log(WarnMallocUninit)] && BackendCalls(o.events) == []
    ensures s.memoryMode != ModeUnknown ==>
      o.result == reply && |o.events| == 1 && BackendCalls(o.events) == o.events
      && RoutedTo(s, o.events[0]) && IsMallocOf(o.events[0], size)
  {
    match s.memoryMode
    case ModeUnknown => Outcome(s, NULL, [Log(WarnMallocUninit)])
    case ModePool => Outcome(s, reply, [PoolMalloc(s.poolAllocator, size)])
    case ModeAllocator => Outcome(s, reply, [CbMalloc(s.mallocFunc, s.allocatorUserData, size)])
    case ModeSystemAllocator => Outcome(s, reply, [OsMalloc(size)])
  }

  /** Public allocation: a request of zero bytes becomes a request of one byte. */
  function Malloc(s: State, size: uint32, reply: Ptr): (o: Outcome<Ptr>)
    ensures o.state == s
    ensures o.result == (if s.memoryMode == ModeUnknown then NULL else reply)
    ensures s.memoryMode == ModeUnknown ==> BackendCalls(o.events) == []
    ensures s.memoryMode != ModeUnknown ==>
      |BackendCalls(o.events)| == 1 && RoutedTo(s, BackendCalls(o.events)[0])
      && IsMallocOf(BackendCalls(o.events)[0], if size == 0 then 1 else size)
    ensures Log(WarnMallocZero) in o.events <==> size == 0
    ensures Valid(s) ==> AllWellFormed(o.events)
  {
    var n: uint32 := if size == 0 then 1 else size;
    var inner := MallocInternal(s, n, reply);
    var warning := if size == 0 then [Log(WarnMallocZero)] else [];
    assert BackendCalls(warning) == [];
    BackendCallsAppend(warning, inner.events);
    Outcome(s, inner.result, warning + inner.events)
  }

  /**
    Reallocation (the public call and its internal helper are the same):
    no bump of zero sizes, no special case for NULL pointers, and NULL
    without any call when the host gave no reallocate function.
   */
  function Realloc(s: State, ptr: Ptr, size: uint32, reply: Ptr): (o: Outcome<Ptr>)
    ensures o.state == s
    ensures s.memoryMode == ModeUnknown ==>
      o.result == NULL && o.events == [Log(WarnReallocUninit)] && BackendCalls(o.events) == []
    ensures s.memoryMode == ModeAllocator && s.reallocFunc == NULL ==>
      o.result == NULL && o.events == []
    ensures s.memoryMode != ModeUnknown && !(s.memoryMode == ModeAllocator && s.reallocFunc == NULL) ==>
      o.result == reply && |o.events| == 1 && BackendCalls(o.events) == o.events
      && RoutedTo(s, o.events[0]) && IsReallocOf(o.events[0], ptr, size)
    ensures Valid(s) ==> AllWellFormed(o.events)
  {
    match s.memoryMode
    case ModeUnknown => Outcome(s, NULL, [Log(WarnReallocUninit)])
    case ModePool => Outcome(s, reply, [PoolRealloc(s.poolAllocator, ptr, size)])
    case ModeAllocator =>
      if s.reallocFunc != NULL then
        Outcome(s, reply, [CbRealloc(s.reallocFunc, s.allocatorUserData, ptr, size)])
      else
        Outcome(s, NULL, [])
    case ModeSystemAllocator => Outcome(s, reply, [OsRealloc(ptr, size)])
  }

  /**
    Release (the public call and its internal helper are the same): NULL is
    diagnosed and reaches no backend, and neither does anything before
    initialisation.
   */
  function Free(s: State, ptr: Ptr): (o: Outcome<()>)
    ensures o.state == s
    ensures ptr == NULL ==> o.events == [Log(WarnFreeNull)]
    ensures ptr != NULL && s.memoryMode == ModeUnknown ==> o.events == [Log(WarnFreeUninit)]
    ensures ptr == NULL || s.memoryMode == ModeUnknown ==> BackendCalls(o.events) == []
    ensures ptr != NULL && s.memoryMode != ModeUnknown ==>
      |o.events| == 1 && BackendCalls(o.events) == o.events
      && RoutedTo(s, o.events[0]) && IsFreeOf(o.events[0], ptr)
    ensures Valid(s) ==> AllWellFormed(o.events)
  {
    if ptr == NULL then Outcome(s, (), [Log(WarnFreeNull)])
    else
      match s.memoryMode
      case ModeUnknown => Outcome(s, (), [Log(WarnFreeUninit)])
      case ModePool => Outcome(s, (), [PoolFree(s.poolAllocator, ptr)])
      case ModeAllocator => Outcome(s, (), [CbFree(s.freeFunc, s.allocatorUserData, ptr)])
      case ModeSystemAllocator => Outcome(s, (), [OsFree(ptr)])
  }

  /** Pool statistics; `reply` is what the pool allocator's introspection returns. */
  function GetMemAllocInfo(s: State, reply: bool): (o: Outcome<bool>)
    ensures o.state == s
    ensures o.result ==> s.memoryMode == ModePool
    ensures s.memoryMode == ModePool ==>
      o.result == reply && o.events == [PoolAllocInfo(s.poolAllocator)] && RoutedTo(s, o.events[0])
    ensures s.memoryMode != ModePool ==> o.events == []
    ensures Valid(s) ==> AllWellFormed(o.events)
  {
    if s.memoryMode == ModePool then Outcome(s, reply, [PoolAllocInfo(s.poolAllocator)])
    else Outcome(s, false, [])
  }

  /** Diagnostics never count as backend calls: the calls of a concatenation are the calls of its parts. */
  lemma {:induction false} BackendCallsAppend(a: seq<Event>, b: seq<Event>)
    ensures BackendCalls(a + b) == BackendCalls(a) + BackendCalls(b)
  {
    if a == [] {
      assert a + b == b;
    } else {
      assert (a + b)[1..] == a[1..] + b;
      BackendCallsAppend(a[1..], b);
    }
  }
}
