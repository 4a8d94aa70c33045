/**
  Sequences of calls into the facade. Each `Op` carries the arguments of one
  public call and the reply its backend would give; `Run` threads the
  process-wide state through them and stops at a leak exit.
 */
module MemoryRuns {
  import opened MemoryModel

  datatype Op =
    | Init(allocType: AllocType, option: MemAllocOption, created: Ptr)
    | Destroy(status: int)
    | QueryPoolSize
    | Allocate(size: uint32, reply: Ptr)
    | Reallocate(ptr: Ptr, size: uint32, reply: Ptr)
    | Release(ptr: Ptr)
    | QueryAllocInfo(available: bool)

  /** What a call returns to the runtime; `Exit` is the leak-detection exit of destroy. */
  datatype Output =
    | BoolResult(b: bool)
    | SizeResult(n: uint32)
    | PtrResult(p: Ptr)
    | NoResult
    | Exit

  function Step(s: State, op: Op, gcVerify: bool): (o: Outcome<Output>)
    ensures Valid(s) ==> Valid(o.state) && AllWellFormed(o.events)
    ensures o.result == Exit ==> op.Destroy? && gcVerify && s.memoryMode == ModePool
  {
    match op
    case Init(t, option, created) =>
      var r := MemoryInit(s, t, option, created);
      Outcome(r.state, BoolResult(r.result), r.events)
    case Destroy(status) =>
      var r := MemoryDestroy(s, gcVerify, status);
      Outcome(r.state, if r.result == LeakExit then Exit else NoResult, r.events)
    case QueryPoolSize =>
      Outcome(s, SizeResult(MemoryPoolSize(s)), [])
    case Allocate(size, reply) =>
      var r := Malloc(s, size, reply);
      Outcome(r.state, PtrResult(r.result), r.events)
    case Reallocate(ptr, size, reply) =>
      var r := Realloc(s, ptr, size, reply);
      Outcome(r.state, PtrResult(r.result), r.events)
    case Release(ptr) =>
      var r := Free(s, ptr);
      Outcome(r.state, NoResult, r.events)
    case QueryAllocInfo(reply) =>
      var r := GetMemAllocInfo(s, reply);
      Outcome(r.state, BoolResult(r.result), r.events)
  }

  lemma AllWellFormedAppend(a: seq<Event>, b: seq<Event>)
    ensures AllWellFormed(a) && AllWellFormed(b) ==> AllWellFormed(a + b)
  {
    if AllWellFormed(a) && AllWellFormed(b) {
      forall i | 0 <= i < |a + b| ensures WellFormedCall((a + b)[i]) {
        if i < |a| { assert (a + b)[i] == a[i]; } else { assert (a + b)[i] == b[i - |a|]; }
      }
    }
  }

  /**
    The calls `ops` made in order from state `s`; after a leak exit no
    further call happens.
   */
  function Run(s: State, ops: seq<Op>, gcVerify: bool): (o: Outcome<seq<Output>>)
    ensures Valid(s) ==> Valid(o.state) && AllWellFormed(o.events)
    ensures |o.result| <= |ops|
    decreases |ops|
  {
    if ops == [] then Outcome(s, [], [])
    else
      var first := Step(s, ops[0], gcVerify);
      if first.result == Exit then Outcome(first.state, [Exit], first.events)
      else
        var rest := Run(first.state, ops[1..], gcVerify);
        AllWellFormedAppend(first.events, rest.events);
        Outcome(rest.state, [first.result] + rest.result, first.events + rest.events)
  }

  /**
    `a` and `b` select the same backend instance: the same mode and, for
    that mode, the same pool or the same callback set. Anything else they
    hold is stale and never read.
   */
  predicate SameBackend(a: State, b: State)
  {
    && a.memoryMode == b.memoryMode
    && (a.memoryMode == ModePool ==>
          a.poolAllocator == b.poolAllocator && a.globalPoolSize == b.globalPoolSize)
    && (a.memoryMode == ModeAllocator ==>
          && a.allocatorUserData == b.allocatorUserData && a.mallocFunc == b.mallocFunc
          && a.reallocFunc == b.reallocFunc && a.freeFunc == b.freeFunc)
  }

  lemma StepSameBackend(a: State, b: State, op: Op, gcVerify: bool)
    requires SameBackend(a, b)
    ensures Step(a, op, gcVerify).result == Step(b, op, gcVerify).result
    ensures Step(a, op, gcVerify).events == Step(b, op, gcVerify).events
    ensures SameBackend(Step(a, op, gcVerify).state, Step(b, op, gcVerify).state)
  {
  }

  /** Two states that select the same backend cannot be told apart by any sequence of calls. */
  lemma {:induction false} RunSameBackend(a: State, b: State, ops: seq<Op>, gcVerify: bool)
    requires SameBackend(a, b)
    ensures Run(a, ops, gcVerify).result == Run(b, ops, gcVerify).result
    ensures Run(a, ops, gcVerify).events == Run(b, ops, gcVerify).events
    ensures SameBackend(Run(a, ops, gcVerify).state, Run(b, ops, gcVerify).state)
    decreases |ops|
  {
    if ops != [] {
      StepSameBackend(a, b, ops[0], gcVerify);
      RunSameBackend(Step(a, ops[0], gcVerify).state, Step(b, ops[0], gcVerify).state, ops[1..], gcVerify);
    }
  }

  /**
    After a destroy that completes, the facade answers every sequence of
    calls exactly as it does at process start, with the same results and
    the same backend requests, although the stale pool size and callback
    set are never cleared.
   */
  lemma RunAfterDestroy(s: State, gcVerify: bool, status: int, destroyed: State, ops: seq<Op>)
    requires MemoryDestroy(s, gcVerify, status).result == Completed
    requires destroyed == MemoryDestroy(s, gcVerify, status).state
    ensures Run(destroyed, ops, gcVerify).result == Run(Initial, ops, gcVerify).result
    ensures Run(destroyed, ops, gcVerify).events == Run(Initial, ops, gcVerify).events
  {
    RunSameBackend(destroyed, Initial, ops, gcVerify);
  }

  /** What each call returns while no backend has been chosen. */
  function UninitializedReply(op: Op): Output
  {
    match op
    case Init(_, _, _) => BoolResult(false)
    case Destroy(_) => NoResult
    case QueryPoolSize => SizeResult(UINT32_MAX)
    case Allocate(_, _) => PtrResult(NULL)
    case Reallocate(_, _, _) => PtrResult(NULL)
    case Release(_) => NoResult
    case QueryAllocInfo(_) => BoolResult(false)
  }

  /**
    Before initialisation (or after destroy), as long as no initialisation
    happens: allocation and reallocation return NULL, free does nothing,
    the pool size is the sentinel, statistics are unavailable, no backend
    receives any request, and the state stays as it is.
   */
  lemma {:induction false} RunUninitialized(s: State, ops: seq<Op>, gcVerify: bool)
    requires s.memoryMode == ModeUnknown
    requires forall i | 0 <= i < |ops| :: !ops[i].Init?
    ensures Run(s, ops, gcVerify).state == s
    ensures |Run(s, ops, gcVerify).result| == |ops|
    ensures forall i | 0 <= i < |ops| :: Run(s, ops, gcVerify).result[i] == UninitializedReply(ops[i])
    ensures BackendCalls(Run(s, ops, gcVerify).events) == []
    decreases |ops|
  {
    if ops != [] {
      var first := Step(s, ops[0], gcVerify);
      assert first.state == s && first.result == UninitializedReply(ops[0]);
      assert BackendCalls(first.events) == [];
      RunUninitialized(s, ops[1..], gcVerify);
      var rest := Run(s, ops[1..], gcVerify);
      BackendCallsAppend(first.events, rest.events);
      assert Run(s, ops, gcVerify).result == [first.result] + rest.result;
      forall i | 0 <= i < |ops| ensures Run(s, ops, gcVerify).result[i] == UninitializedReply(ops[i]) {
        if i > 0 { assert ops[1..][i - 1] == ops[i]; }
      }
    }
  }
}
