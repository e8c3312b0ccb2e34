/** The promise pool: the constructor turns its argument into options and a
    strategy class, builds the strategy, and every other operation is passed
    on to that strategy. */
module PromisePool {
  import opened Common
  import opened Lanes
  import opened StrategyBase
  import opened RoundRobinStrategy
  import opened RandomStrategy
  import opened LoadBalancerStrategy

  /** The three strategy classes of `lib/strategies`. */
  datatype Kind = RoundRobinKind | RandomKind | LoadBalancerKind

  /** The `strategy` property of an options object: absent, a string naming
      a strategy file, or a strategy class passed directly. */
  datatype StrategyOption = Unset | Named(name: string) | Class(kind: Kind)

  /** The argument given to `new Pool(...)`. An options object carries an
      optional integer `size` and a `strategy`. */
  datatype Arg =
    | Undefined
    | Null
    | Number(n: int)
    | Text(s: string)
    | Bool(b: bool)
    | Options(size: Option<int>, strategy: StrategyOption)

  /** What the constructor settles on before building the strategy: the
      strategy class and the `size` the strategy will be given. */
  datatype Config = Config(kind: Kind, size: Option<int>)

  /** One strategy object of each class. */
  datatype Engine = RR(rr: RoundRobin) | Rand(rand: Random) | LB(lb: LoadBalancer)

  /** The file of `lib/strategies` that holds each class. */
  function FileName(k: Kind): string
  {
    match k
    case RoundRobinKind => "round-robin"
    case RandomKind => "random"
    case LoadBalancerKind => "load-balancer"
  }

  /** `require('./strategies/' + name)`: the class in the file of that name,
      if there is one; the module loader also finds a file when its name is
      given without the `.js` extension. */
  function StrategyFile(name: string): (k: Option<Kind>)
    ensures k.Some? ==> name == FileName(k.value) || name == FileName(k.value) + ".js"
  {
    var stem := if |name| >= 3 && name[|name| - 3..] == ".js" then name[..|name| - 3] else name;
    if name == "round-robin" || stem == "round-robin" then Some(RoundRobinKind)
    else if name == "random" || stem == "random" then Some(RandomKind)
    else if name == "load-balancer" || stem == "load-balancer" then Some(LoadBalancerKind)
    else None
  }

  /** The strategy class: a class given as `strategy` is used as it is;
      otherwise the file named `strategy || 'round-robin'` is loaded, which
      fails when there is no such file. */
  function Resolve(strategy: StrategyOption): (r: Result<Kind>)
    ensures r.Err? ==> strategy.Named? && r.error == ModuleNotFound(strategy.name)
  {
    match strategy
    case Class(k) => Ok(k)
    case Unset => Ok(RoundRobinKind)
    case Named(name) =>
      var file := if name == "" then FileName(RoundRobinKind) else name;
      match StrategyFile(file)
      case Some(k) => Ok(k)
      case None => Err(ModuleNotFound(file))
  }

  /** The constructor up to the strategy's own size check. A number `n`
      becomes the options `{ size: n }`. A falsy argument becomes `{}`, but
      the strategy is then looked up on the argument as given, so
      `undefined` and `null` throw a TypeError. Any other value is kept as
      the options, and a string or a boolean has neither `size` nor
      `strategy`. */
  function Configure(arg: Arg): (r: Result<Config>)
    ensures r.Err? ==> r.error == ReadOfUndefined || r.error.ModuleNotFound?
  {
    match arg
    case Undefined => Err(ReadOfUndefined)
    case Null => Err(ReadOfUndefined)
    case Number(n) => Ok(Config(RoundRobinKind, Some(n)))
    case Text(_) => Ok(Config(RoundRobinKind, None))
    case Bool(_) => Ok(Config(RoundRobinKind, None))
    case Options(size, strategy) =>
      match Resolve(strategy)
      case Ok(k) => Ok(Config(k, size))
      case Err(e) => Err(e)
  }

  /** The whole constructor: `Configure`, then the strategy constructor's
      check that the size is positive. */
  function Outcome(arg: Arg): (r: Result<Config>)
    ensures r.Ok? ==> Configure(arg) == r && r.value.size.Some? && r.value.size.value > 0
  {
    match Configure(arg)
    case Err(e) => Err(e)
    case Ok(c) => if ValidateSize(c.size).Ok? then Ok(c) else Err(SizeNotPositive)
  }

  /** The number of `Math.random()` draws a placement uses under the random
      strategy: one per task. */
  function DrawCount(arg: Submission): nat
  {
    match arg
    case Single(_) => 1
    case Batch(tasks) => |tasks|
  }

  /** What a strategy keeps, besides its lanes, to choose the next lane:
      the round-robin cursor, nothing for the random strategy (each choice
      is a fresh draw), the load balancer's heap and loads. */
  datatype Picker = AtCursor(cursor: nat) | Undrawn | InHeap(balance: Balance)

  /** The picker after `k` more tasks were placed one `enqueue` after the
      other: the cursor moves on by `k`, and the load balancer polls and
      re-adds its root `k` times; a heap with nothing to poll stays as it
      was, since the placement throws. */
  ghost function Advance(p: Picker, k: nat): Picker
  {
    match p
    case AtCursor(c) => AtCursor(c + k)
    case Undrawn => Undrawn
    case InHeap(b) => if Ready(b) then InHeap(EnqueueTimes(b, k)) else p
  }

  /** The picker of a strategy just built with `size` lanes: the
      round-robin cursor at 0, or the load balancer's heap of every lane in
      index order, all at load 0. */
  function StartPicker(kind: Kind, size: nat): Picker
  {
    match kind
    case RoundRobinKind => AtCursor(0)
    case RandomKind => Undrawn
    case LoadBalancerKind => InHeap(Fresh(size))
  }

  /** The lanes after one task was placed on the lane `choice` names; no
      lane means nothing changed. */
  ghost predicate PlacedOne(choice: Option<nat>, before: seq<seq<Item>>, after: seq<seq<Item>>,
                            hooks: Hooks, task: TaskId)
  {
    match choice
    case None => after == before
    case Some(idx) => idx < |before| && after == Append(before, idx, Placement(hooks, idx, task))
  }

  /** The lanes after each task was placed on the lane `choice` names for
      it, in order; no lanes means nothing changed. */
  ghost predicate PlacedAll(choice: Option<seq<nat>>, before: seq<seq<Item>>, after: seq<seq<Item>>,
                            hooks: Hooks, tasks: seq<TaskId>)
  {
    match choice
    case None => after == before
    case Some(idxs) =>
      && |idxs| == |tasks| && AllBelow(idxs, |before|)
      && after == PlaceEach(before, hooks, tasks, idxs)
  }

  class Pool {
    /** `this.strategyClass`. */
    const strategyClass: Kind
    /** `this.strategy`. */
    const strategy: Engine

    /** The strategy object and the base state it inherits. */
    function Repr(): set<object>
    {
      match strategy
      case RR(s) => {s, s.base}
      case Rand(s) => {s, s.base}
      case LB(s) => {s, s.base}
    }

    /** The strategy object alone, which placements change. */
    function Engines(): set<object>
    {
      match strategy
      case RR(s) => {s}
      case Rand(s) => {s}
      case LB(s) => {s}
    }

    /** The base state of the strategy, which holds the hooks. */
    function Base(): Strategy
    {
      match strategy
      case RR(s) => s.base
      case Rand(s) => s.base
      case LB(s) => s.base
    }

    ghost predicate Valid()
      reads Repr()
    {
      match strategy
      case RR(s) => strategyClass == RoundRobinKind && s.Valid()
      case Rand(s) => strategyClass == RandomKind && s.Valid()
      case LB(s) => strategyClass == LoadBalancerKind && s.Valid()
    }

    /** The promise chain of every lane of the strategy. */
    function Lanes(): seq<seq<Item>>
      reads Engines()
    {
      match strategy
      case RR(s) => s.lanes
      case Rand(s) => s.lanes
      case LB(s) => s.chains
    }

    function Hooks(): Hooks
      reads Base()
    {
      Base().hooks
    }

    /** The state the strategy chooses lanes from. */
    ghost function Picker(): Picker
      reads Engines()
    {
      match strategy
      case RR(s) => AtCursor(s.cursor)
      case Rand(_) => Undrawn
      case LB(s) => InHeap(s.State())
    }

    /** The lane the strategy's `enqueue` picks next, given the draw the
        random strategy would make; the load balancer has none when its heap
        is empty. */
    ghost function NextLane(draw: real): (c: Option<nat>)
      requires Valid() && IsDraw(draw)
      reads Repr()
      ensures c.Some? ==> c.value < |Lanes()|
    {
      match strategy
      case RR(s) => Some(s.cursor % |s.lanes|)
      case Rand(s) => Some(RandomBetween(0, |s.lanes| - 1, draw))
      case LB(s) => if s.queue == [] then None else Some(s.queue[0])
    }

    /** The lanes `k` successive `enqueue` calls pick, given the draws the
        random strategy would make; the load balancer has none when its
        heap is empty and there is a task to place. */
    ghost function NextLanes(k: nat, draws: seq<real>): (c: Option<seq<nat>>)
      requires Valid() && AllDraws(draws) && |draws| == k
      reads Repr()
      ensures c.Some? ==> |c.value| == k && AllBelow(c.value, |Lanes()|)
    {
      match strategy
      case RR(s) => Some(Rotation(|s.lanes|, s.cursor, k))
      case Rand(s) => Some(Draws(|s.lanes|, draws))
      case LB(s) =>
        if s.queue == [] then (if k == 0 then Some([]) else None)
        else Some(Picks(s.State(), k))
    }

    constructor (strategyClass: Kind, strategy: Engine)
      ensures this.strategyClass == strategyClass && this.strategy == strategy
    {
      this.strategyClass := strategyClass;
      this.strategy := strategy;
    }

    /** `new Pool(arg)`: the outcome of `Outcome(arg)`; a pool that is built
        has a fresh strategy of the chosen class, with `size` idle lanes, no
        hooks and the picker of a new strategy. */
    static method Create(arg: Arg) returns (r: Result<Pool>)
      ensures r.Err? <==> Outcome(arg).Err?
      ensures r.Err? ==> r.error == Outcome(arg).error
      ensures r.Ok? ==>
                && fresh(r.value) && fresh(r.value.Repr()) && r.value.Valid()
                && r.value.strategyClass == Outcome(arg).value.kind
                && r.value.Lanes() == Idle(Outcome(arg).value.size.value)
                && r.value.Hooks() == map[]
                && r.value.Picker() == StartPicker(Outcome(arg).value.kind, Outcome(arg).value.size.value)
    {
      var c := Configure(arg);
      if c.Err? {
        return Err(c.error);
      }
      var kind, size := c.value.kind, c.value.size;
      match kind
      case RoundRobinKind =>
        var s := RoundRobin.Create(size);
        if s.Err? {
          return Err(s.error);
        }
        var p := new Pool(kind, RR(s.value));
        r := Ok(p);
      case RandomKind =>
        var s := Random.Create(size);
        if s.Err? {
          return Err(s.error);
        }
        var p := new Pool(kind, Rand(s.value));
        r := Ok(p);
      case LoadBalancerKind =>
        var s := LoadBalancer.Create(size);
        if s.Err? {
          return Err(s.error);
        }
        var p := new Pool(kind, LB(s.value));
        r := Ok(p);
    }

    /** `beforeEach(f)`: registered on the strategy; the pool is returned. */
    method BeforeEach(f: Option<HookFn>) returns (self: Pool)
      requires Valid()
      modifies Base()
      ensures Valid() && self == this
      ensures Hooks() == Register(old(Hooks()), Before, f) && Lanes() == old(Lanes())
    {
      var _ := Base().BeforeEach(f);
      self := this;
    }

    /** `afterEach(f)`: registered on the strategy; the pool is returned. */
    method AfterEach(f: Option<HookFn>) returns (self: Pool)
      requires Valid()
      modifies Base()
      ensures Valid() && self == this
      ensures Hooks() == Register(old(Hooks()), After, f) && Lanes() == old(Lanes())
    {
      var _ := Base().AfterEach(f);
      self := this;
    }

    /** `enqueue(f)`: an array goes to the strategy's `enqueueMany`, which
        places its tasks one `enqueue` after the other and returns the last
        tail; a single task goes to the strategy's `enqueue`, which returns
        its tail. The load balancer throws on an empty heap. */
    method Enqueue(arg: Submission, draws: seq<real>) returns (r: Result<Option<Handle>>)
      requires Valid() && AllDraws(draws) && |draws| == DrawCount(arg)
      modifies Engines()
      ensures Valid() && Hooks() == old(Hooks())
      ensures arg.Single? ==> Picker() == Advance(old(Picker()), 1)
      ensures arg.Batch? ==> Picker() == Advance(old(Picker()), |arg.tasks|)
      ensures arg.Single? ==>
                var c := old(NextLane(draws[0]));
                && PlacedOne(c, old(Lanes()), Lanes(), Hooks(), arg.task)
                && r == (if c.None? then Err(ReadOfUndefined) else Ok(Some(Handle(c.value, |Lanes()[c.value]|))))
      ensures arg.Batch? ==>
                var c := old(NextLanes(|arg.tasks|, draws));
                && PlacedAll(c, old(Lanes()), Lanes(), Hooks(), arg.tasks)
                && r == (if c.None? then Err(ReadOfUndefined) else Ok(LastTail(Lanes(), c.value)))
    {
      match arg
      case Single(task) =>
        r := EnqueueOne(task, draws[0]);
      case Batch(tasks) =>
        r := EnqueueAll(arg, draws);
    }

    /** `this.strategy.enqueue(f)`. */
    method EnqueueOne(task: TaskId, draw: real) returns (r: Result<Option<Handle>>)
      requires Valid() && IsDraw(draw)
      modifies Engines()
      ensures Valid() && Hooks() == old(Hooks())
      ensures Picker() == Advance(old(Picker()), 1)
      ensures var c := old(NextLane(draw));
              && PlacedOne(c, old(Lanes()), Lanes(), Hooks(), task)
              && r == (if c.None? then Err(ReadOfUndefined) else Ok(Some(Handle(c.value, |Lanes()[c.value]|))))
    {
      match strategy
      case RR(s) =>
        var h := s.Enqueue(task);
        r := Ok(Some(h));
      case Rand(s) =>
        var h := s.Enqueue(task, draw);
        r := Ok(Some(h));
      case LB(s) =>
        ghost var b := s.State();
        var h := s.Enqueue(task);
        if b.queue != [] {
          EnqueueTimesNext(b, 0);
        }
        r := if h.Err? then Err(h.error) else Ok(Some(h.value));
    }

    /** `this.strategy.enqueueMany(array)`: anything but an array is
        rejected; the tasks of an array are placed in order. */
    method EnqueueMany(arg: Submission, draws: seq<real>) returns (r: Result<Option<Handle>>)
      requires Valid() && AllDraws(draws) && |draws| == DrawCount(arg)
      modifies Engines()
      ensures Valid() && Hooks() == old(Hooks())
      ensures arg.Single? ==> Picker() == old(Picker())
      ensures arg.Batch? ==> Picker() == Advance(old(Picker()), |arg.tasks|)
      ensures arg.Single? ==> r == Err(NotAnArray) && Lanes() == old(Lanes())
      ensures arg.Batch? ==>
                var c := old(NextLanes(|arg.tasks|, draws));
                && PlacedAll(c, old(Lanes()), Lanes(), Hooks(), arg.tasks)
                && r == (if c.None? then Err(ReadOfUndefined) else Ok(LastTail(Lanes(), c.value)))
    {
      r := EnqueueAll(arg, draws);
    }

    /** The strategy's `enqueueMany`, which `enqueue`, `enqueueMany` and
        `schedule` all reach for an array. */
    method EnqueueAll(arg: Submission, draws: seq<real>) returns (r: Result<Option<Handle>>)
      requires Valid() && AllDraws(draws) && |draws| == DrawCount(arg)
      modifies Engines()
      ensures Valid() && Hooks() == old(Hooks())
      ensures arg.Single? ==> Picker() == old(Picker())
      ensures arg.Batch? ==> Picker() == Advance(old(Picker()), |arg.tasks|)
      ensures arg.Single? ==> r == Err(NotAnArray) && Lanes() == old(Lanes())
      ensures arg.Batch? ==>
                var c := old(NextLanes(|arg.tasks|, draws));
                && PlacedAll(c, old(Lanes()), Lanes(), Hooks(), arg.tasks)
                && r == (if c.None? then Err(ReadOfUndefined) else Ok(LastTail(Lanes(), c.value)))
    {
      match strategy
      case RR(s) =>
        r := s.EnqueueMany(arg);
      case Rand(s) =>
        r := s.EnqueueMany(arg, if arg.Batch? then draws else []);
      case LB(s) =>
        r := s.EnqueueMany(arg);
    }

    /** `enqueueOnSameExecutor(f)`: the strategy's `enqueueOnSameExecutor`
        on the one-element array `[f]`, which places `f` where `enqueue(f)`
        would. */
    method EnqueueOnSameExecutor(task: TaskId, draw: real) returns (r: Result<Option<Handle>>)
      requires Valid() && IsDraw(draw)
      modifies Engines()
      ensures Valid() && Hooks() == old(Hooks())
      ensures Picker() == Advance(old(Picker()), 1)
      ensures var c := old(NextLane(draw));
              && PlacedOne(c, old(Lanes()), Lanes(), Hooks(), task)
              && r == (if c.None? then Err(ReadOfUndefined) else Ok(Some(Handle(c.value, |Lanes()[c.value]|))))
    {
      match strategy
      case RR(s) =>
        r := SameExecutorRoundRobin(s, task, draw);
      case Rand(s) =>
        r := SameExecutorRandom(s, task, draw);
      case LB(s) =>
        r := SameExecutorLoadBalancer(s, task, draw);
    }

    /** `enqueueOnSameExecutor([f])` on a round-robin strategy. */
    method SameExecutorRoundRobin(s: RoundRobin, task: TaskId, draw: real) returns (r: Result<Option<Handle>>)
      requires Valid() && IsDraw(draw) && strategy == RR(s)
      modifies s
      ensures Valid() && Hooks() == old(Hooks())
      ensures Picker() == Advance(old(Picker()), 1)
      ensures var c := old(NextLane(draw));
              && PlacedOne(c, old(Lanes()), Lanes(), Hooks(), task)
              && r == (if c.None? then Err(ReadOfUndefined) else Ok(Some(Handle(c.value, |Lanes()[c.value]|))))
    {
      PlaceAllOne(s.base.hooks, s.cursor % |s.lanes|, task);
      var h := s.EnqueueOnSameExecutor([task]);
      r := Ok(h);
    }

    /** `enqueueOnSameExecutor([f])` on a random strategy: one element, so
        one draw. */
    method SameExecutorRandom(s: Random, task: TaskId, draw: real) returns (r: Result<Option<Handle>>)
      requires Valid() && IsDraw(draw) && strategy == Rand(s)
      modifies s
      ensures Valid() && Hooks() == old(Hooks())
      ensures Picker() == Advance(old(Picker()), 1)
      ensures var c := old(NextLane(draw));
              && PlacedOne(c, old(Lanes()), Lanes(), Hooks(), task)
              && r == (if c.None? then Err(ReadOfUndefined) else Ok(Some(Handle(c.value, |Lanes()[c.value]|))))
    {
      ghost var start, idx := s.lanes, RandomBetween(0, |s.lanes| - 1, draw);
      assert Draws(|start|, [draw]) == [idx];
      var h := s.EnqueueOnSameExecutor([task], [draw]);
      PlaceEachOne(start, s.base.hooks, task, idx);
      r := Ok(h);
    }

    /** `enqueueOnSameExecutor([f])` on a load-balancing strategy. */
    method SameExecutorLoadBalancer(s: LoadBalancer, task: TaskId, draw: real) returns (r: Result<Option<Handle>>)
      requires Valid() && IsDraw(draw) && strategy == LB(s)
      modifies s
      ensures Valid() && Hooks() == old(Hooks())
      ensures Picker() == Advance(old(Picker()), 1)
      ensures var c := old(NextLane(draw));
              && PlacedOne(c, old(Lanes()), Lanes(), Hooks(), task)
              && r == (if c.None? then Err(ReadOfUndefined) else Ok(Some(Handle(c.value, |Lanes()[c.value]|))))
    {
      ghost var before := s.chains;
      if s.queue == [] {
        assert NextLane(draw) == None;
        r := s.EnqueueOnSameExecutor([task]);
        assert s.chains == before;
      } else {
        ghost var d := s.queue[0];
        assert NextLane(draw) == Some(d);
        EnqueueTimesNext(s.State(), 0);
        PlaceAllOne(s.base.hooks, d, task);
        r := s.EnqueueOnSameExecutor([task]);
        assert s.chains == Append(before, d, Placement(s.base.hooks, d, task));
      }
    }

    /** `schedule(f)`: placed as `enqueue(f)` places it; the pool is
        returned. */
    method Schedule(arg: Submission, draws: seq<real>) returns (r: Result<Pool>)
      requires Valid() && AllDraws(draws) && |draws| == DrawCount(arg)
      modifies Engines()
      ensures Valid() && Hooks() == old(Hooks())
      ensures arg.Single? ==> Picker() == Advance(old(Picker()), 1)
      ensures arg.Batch? ==> Picker() == Advance(old(Picker()), |arg.tasks|)
      ensures arg.Single? ==>
                var c := old(NextLane(draws[0]));
                && PlacedOne(c, old(Lanes()), Lanes(), Hooks(), arg.task)
                && r == (if c.None? then Err(ReadOfUndefined) else Ok(this))
      ensures arg.Batch? ==>
                var c := old(NextLanes(|arg.tasks|, draws));
                && PlacedAll(c, old(Lanes()), Lanes(), Hooks(), arg.tasks)
                && r == (if c.None? then Err(ReadOfUndefined) else Ok(this))
    {
      var e := Enqueue(arg, draws);
      r := if e.Err? then Err(e.error) else Ok(this);
    }
  }

  // ---------------------------------------------------------------------
  // Lemmas

  /** `require` finds exactly the three strategy files, each under its own
      name with or without the `.js` extension. */
  lemma StrategyFileRoundTrip(k: Kind, name: string)
    ensures StrategyFile(FileName(k)) == Some(k)
    ensures StrategyFile(FileName(k) + ".js") == Some(k)
    ensures StrategyFile(name).Some? <==>
              name in {"round-robin", "random", "load-balancer", "round-robin.js", "random.js", "load-balancer.js"}
  {
    WithExtension(RoundRobinKind);
    WithExtension(RandomKind);
    WithExtension(LoadBalancerKind);
    assert "round-robin" + ".js" == "round-robin.js";
    assert "random" + ".js" == "random.js";
    assert "load-balancer" + ".js" == "load-balancer.js";
    if |name| >= 3 && name[|name| - 3..] == ".js" {
      assert name == name[..|name| - 3] + ".js";
    }
  }

  lemma WithExtension(k: Kind)
    ensures StrategyFile(FileName(k) + ".js") == Some(k)
  {
    var js := FileName(k) + ".js";
    assert js[|js| - 3..] == ".js" && js[..|js| - 3] == FileName(k);
  }

  /** A pool just built places its first task without failing: round-robin
      and the load balancer on lane 0, the random strategy on the drawn lane. */
  lemma FirstPickOfNewPool(p: Pool, size: nat, draw: real)
    requires p.Valid() && IsDraw(draw) && |p.Lanes()| == size
    requires p.Picker() == StartPicker(p.strategyClass, size)
    ensures p.NextLane(draw).Some?
    ensures p.strategyClass != RandomKind ==> p.NextLane(draw) == Some(0)
    ensures p.strategyClass == RandomKind ==> p.NextLane(draw) == Some(RandomBetween(0, size - 1, draw))
  {
    match p.strategy
    case RR(s) =>
    case Rand(s) =>
    case LB(s) =>
      assert s.State() == Fresh(size);
      assert s.queue == Fresh(size).queue && s.queue[0] == 0;
  }

  /** Only a missing argument makes the constructor throw a TypeError. */
  lemma OnlyMissingArgumentThrowsTypeError(arg: Arg)
    ensures Outcome(arg).Err? && Outcome(arg).error == ReadOfUndefined <==> arg.Undefined? || arg.Null?
  {
  }

  /** A number is the size of a round-robin pool, which is built exactly
      when it is positive. */
  lemma NumberIsSize(n: int)
    ensures Outcome(Number(n)).Ok? <==> n > 0
    ensures Outcome(Number(n)).Ok? ==> Outcome(Number(n)).value == Config(RoundRobinKind, Some(n))
  {
  }

  /** Without a strategy, or with an empty name, the pool is round-robin. */
  lemma DefaultIsRoundRobin(size: Option<int>)
    ensures Configure(Options(size, Unset)) == Ok(Config(RoundRobinKind, size))
    ensures Configure(Options(size, Named(""))) == Ok(Config(RoundRobinKind, size))
  {
  }

  /** A class passed as `strategy` is used as the strategy class. */
  lemma ClassIsUsedAsIs(size: Option<int>, k: Kind)
    ensures Configure(Options(size, Class(k))) == Ok(Config(k, size))
  {
  }

  /** A name is looked up before the size is checked: an unknown name fails
      whatever the size, and a known one selects its class. */
  lemma NameSelectsFile(size: Option<int>, name: string)
    requires name != ""
    ensures Outcome(Options(size, Named(name))).Err? <==>
              StrategyFile(name).None? || !(size.Some? && size.value > 0)
    ensures StrategyFile(name).None? ==> Outcome(Options(size, Named(name))) == Err(ModuleNotFound(name))
    ensures Outcome(Options(size, Named(name))).Ok? ==>
              Outcome(Options(size, Named(name))).value == Config(StrategyFile(name).value, size)
  {
  }

  /** The constructor's accepted and rejected arguments, case by case. */
  lemma InitializationCases()
    ensures Outcome(Undefined) == Err(ReadOfUndefined)
    ensures Outcome(Number(5)) == Ok(Config(RoundRobinKind, Some(5)))
    ensures Outcome(Options(Some(5), Named("round-robin"))) == Ok(Config(RoundRobinKind, Some(5)))
    ensures Outcome(Text("foo")) == Err(SizeNotPositive)
    ensures Outcome(Options(None, Unset)) == Err(SizeNotPositive)
    ensures Outcome(Options(Some(5), Named("foo"))) == Err(ModuleNotFound("foo"))
    ensures Outcome(Options(None, Named("foo"))) == Err(ModuleNotFound("foo"))
  {
    UnknownNameFails(Some(5));
    UnknownNameFails(None);
    RoundRobinByName(Some(5));
  }

  lemma UnknownNameFails(size: Option<int>)
    ensures Outcome(Options(size, Named("foo"))) == Err(ModuleNotFound("foo"))
  {
    ThreeLettersNoFile("foo");
  }

  /** No strategy file has a three-letter name, and a three-letter name
      that does not start with a dot has no `.js` ending to drop. */
  lemma ThreeLettersNoFile(name: string)
    requires |name| == 3 && name[0] != '.'
    ensures StrategyFile(name) == None
  {
    assert name[|name| - 3..][0] == name[0];
  }

  lemma RoundRobinByName(size: Option<int>)
    requires size.Some? && size.value > 0
    ensures Outcome(Options(size, Named("round-robin"))) == Ok(Config(RoundRobinKind, size))
  {
    var rr := "round-robin";
    assert rr[|rr| - 3..] != ".js" by { assert rr[|rr| - 3] != '.'; }
    assert StrategyFile(rr) == Some(RoundRobinKind);
  }

  /** A single task goes where the first task of a one-element array
      would go. */
  lemma SingleIsBatchOfOne(p: Pool, draw: real)
    requires p.Valid() && IsDraw(draw)
    ensures p.NextLanes(1, [draw]) ==
              (if p.NextLane(draw).None? then None else Some([p.NextLane(draw).value]))
  {
    match p.strategy
    case RR(s) =>
      var n := |s.lanes|;
      assert Rotation(n, s.cursor, 1) == [s.cursor % n];
      assert p.NextLanes(1, [draw]) == Some(Rotation(n, s.cursor, 1));
      assert p.NextLane(draw) == Some(s.cursor % n);
    case Rand(s) =>
      var n := |s.lanes|;
      assert Draws(n, [draw]) == [RandomBetween(0, n - 1, draw)];
      assert p.NextLanes(1, [draw]) == Some(Draws(n, [draw]));
      assert p.NextLane(draw) == Some(RandomBetween(0, n - 1, draw));
    case LB(s) =>
      if s.queue != [] {
        var b := s.State();
        assert EnqueueTimes(b, 0) == b;
        assert Picks(b, 1) == Picks(b, 0) + [EnqueueTimes(b, 0).queue[0]] == [s.queue[0]];
        assert p.NextLanes(1, [draw]) == Some(Picks(b, 1));
      }
  }
}
