/** The base every placement strategy extends: the size check of its
    constructor, the single-slot hook registry, the wrapped hook that lanes
    run, and the argument check of `enqueueMany`. The strategies hold an
    instance of `Strategy` as their `base` where the original inherits. */
module StrategyBase {
  import opened Common
  import opened Lanes

  /** What a caller hands to `enqueue`, `schedule` or `enqueueMany`: one
      callable, or an array of callables. */
  datatype Submission = Single(task: TaskId) | Batch(tasks: seq<TaskId>)

  /** What running a queued item calls: the task, or the hook registered
      for its kind, with the lane index as first argument (the second
      argument, the strategy itself, is the same for every call). */
  datatype Call = CallTask(task: TaskId) | CallHook(hook: HookFn, lane: nat)

  /** The constructor's size check: `opts.size > 0`, false for a missing
      size. */
  function ValidateSize(size: Option<int>): (r: Result<nat>)
    ensures r.Ok? <==> size.Some? && size.value > 0
    ensures r.Ok? ==> r.value == size.value
    ensures r.Err? ==> r.error == SizeNotPositive
  {
    if size.Some? && size.value > 0 then Ok(size.value) else Err(SizeNotPositive)
  }

  /** `hooks[kind] = f`: a falsy `f` leaves the slot without a callable. */
  function Register(hooks: Hooks, kind: HookKind, f: Option<HookFn>): (r: Hooks)
    ensures kind in r <==> f.Some?
    ensures f.Some? ==> r[kind] == f.value
    ensures forall k :: k != kind ==> (k in r <==> k in hooks) && (k in r ==> r[k] == hooks[k])
  {
    if f.Some? then hooks[kind := f.value] else hooks - {kind}
  }

  function KindOf(item: Item): HookKind
    requires !item.Run?
  {
    if item.BeforeHook? then Before else After
  }

  /** Running an item: a task item calls its task; a hook item looks the
      hook up in the registry as it stands when the item runs, and throws
      if no callable is registered then. */
  function Invoke(hooks: Hooks, item: Item): (r: Result<Call>)
    ensures item.Run? ==> r == Ok(CallTask(item.task))
    ensures !item.Run? ==> (r.Ok? <==> KindOf(item) in hooks)
    ensures !item.Run? && r.Ok? ==> r.value == CallHook(hooks[KindOf(item)], item.lane)
    ensures !item.Run? && r.Err? ==> r.error == NotAFunction
  {
    match item
    case Run(t) => Ok(CallTask(t))
    case _ => if KindOf(item) in hooks then Ok(CallHook(hooks[KindOf(item)], item.lane)) else Err(NotAFunction)
  }

  /** The array check at the head of `enqueueMany` as written: it tests `f`,
      a name that is not bound where the check stands, so evaluating it
      throws a ReferenceError whatever the argument. */
  function EnqueueManyGuardAsWritten(arg: Submission): (r: Result<seq<TaskId>>)
    ensures r.Err? && r.error == UnboundName("f")
  {
    Err(UnboundName("f"))
  }

  /** The array check as intended: an array is accepted as it is, anything
      else is rejected with 'The given parameter should be an array'. */
  function EnqueueManyGuard(arg: Submission): (r: Result<seq<TaskId>>)
    ensures r.Ok? <==> arg.Batch?
    ensures r.Ok? ==> r.value == arg.tasks
    ensures r.Err? ==> r.error == NotAnArray
  {
    match arg
    case Batch(tasks) => Ok(tasks)
    case Single(_) => Err(NotAnArray)
  }

  /** The state a strategy inherits: the options' size and the hooks
      registry. */
  class Strategy {
    const size: nat
    var hooks: Hooks

    /** The registry starts empty. The size check that precedes it is
        `ValidateSize`, applied by every strategy's `Create`. */
    constructor (size: nat)
      ensures this.size == size && hooks == map[]
    {
      this.size := size;
      hooks := map[];
    }

    /** `beforeEach(f)`: fills the single before slot, replacing whatever
        was there, and returns the strategy for chaining. */
    method BeforeEach(f: Option<HookFn>) returns (self: Strategy)
      modifies this`hooks
      ensures hooks == Register(old(hooks), Before, f) && self == this
    {
      hooks := Register(hooks, Before, f);
      self := this;
    }

    /** `afterEach(f)`: fills the single after slot likewise. */
    method AfterEach(f: Option<HookFn>) returns (self: Strategy)
      modifies this`hooks
      ensures hooks == Register(old(hooks), After, f) && self == this
    {
      hooks := Register(hooks, After, f);
      self := this;
    }
  }

  // ---------------------------------------------------------------------
  // Lemmas

  /** A second registration replaces the first: the registry holds one
      callback per kind. */
  lemma RegisterOverwrites(hooks: Hooks, kind: HookKind, f: Option<HookFn>, g: Option<HookFn>)
    ensures Register(Register(hooks, kind, f), kind, g) == Register(hooks, kind, g)
  {
    var a, b := Register(Register(hooks, kind, f), kind, g), Register(hooks, kind, g);
    assert forall k :: k in a <==> k in b;
  }

  /** A hook item calls whatever hook is registered when it runs, not the one
      registered when it was queued. */
  lemma HookIsLateBound(hooks: Hooks, item: Item, g: HookFn)
    requires !item.Run?
    ensures Invoke(Register(hooks, KindOf(item), Some(g)), item) == Ok(CallHook(g, item.lane))
  {
  }

  /** The shipped `enqueueMany` rejects every array, which the intended check
      accepts. */
  lemma EnqueueManyRejectsEveryArray(tasks: seq<TaskId>)
    ensures EnqueueManyGuardAsWritten(Batch(tasks)).Err?
    ensures EnqueueManyGuard(Batch(tasks)) == Ok(tasks)
  {
  }
}
