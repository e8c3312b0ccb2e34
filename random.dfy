/** The random strategy: every placement draws its lane uniformly from the
    pool. The draw of `Math.random()`, a number in [0, 1), is a parameter of
    every operation that draws. */
module RandomStrategy {
  import opened Common
  import opened Lanes
  import opened StrategyBase

  /** A value `Math.random()` can return. */
  ghost predicate IsDraw(r: real)
  {
    0.0 <= r < 1.0
  }

  ghost predicate AllDraws(draws: seq<real>)
  {
    forall k :: 0 <= k < |draws| ==> IsDraw(draws[k])
  }

  /** `random(min, max)`: `floor(r * (max - min + 1)) + min` for the draw `r`;
      the result lies between `min` and `max`, both included. */
  function RandomBetween(min: int, max: int, r: real): (v: int)
    requires min <= max && IsDraw(r)
    ensures min <= v <= max
  {
    var width := (max - min + 1) as real;
    assert 0.0 <= r * width < width;
    (r * width).Floor + min
  }

  /** The lanes `obtainIndex` returns on `n` lanes for the draws `draws`. */
  function Draws(n: nat, draws: seq<real>): (idxs: seq<nat>)
    requires n > 0 && AllDraws(draws)
    ensures |idxs| == |draws| && AllBelow(idxs, n)
    ensures forall k :: 0 <= k < |draws| ==> idxs[k] == RandomBetween(0, n - 1, draws[k])
  {
    seq(|draws|, k requires 0 <= k < |draws| => RandomBetween(0, n - 1, draws[k]) as nat)
  }

  class Random {
    const base: Strategy
    /** `this.pool`: the promise chain of every lane. */
    var lanes: seq<seq<Item>>

    ghost predicate Valid()
      reads this, base
    {
      base.size > 0 && |lanes| == base.size && Tagged(lanes)
    }

    /** `size` idle lanes, no hooks. */
    constructor (size: nat)
      requires size > 0
      ensures Valid() && fresh(base)
      ensures lanes == Idle(size) && base.hooks == map[]
    {
      base := new Strategy(size);
      lanes := [];
      new;
      var i := 0;
      while i < size
        invariant 0 <= i <= size
        invariant lanes == Idle(i) && base.hooks == map[]
      {
        lanes := lanes + [[]];
        i := i + 1;
      }
    }

    /** `new RandomStrategy(opts)`: throws unless the size is positive. */
    static method Create(size: Option<int>) returns (r: Result<Random>)
      ensures r.Err? <==> ValidateSize(size).Err?
      ensures r.Err? ==> r.error == SizeNotPositive
      ensures r.Ok? ==> fresh(r.value) && fresh(r.value.base) && r.value.Valid()
      ensures r.Ok? ==> r.value.lanes == Idle(size.value) && r.value.base.hooks == map[]
    {
      var checked := ValidateSize(size);
      if checked.Err? {
        return Err(checked.error);
      }
      var s := new Random(checked.value);
      r := Ok(s);
    }

    /** `obtainIndex`: `random(0, n - 1)`; it changes nothing. */
    method ObtainIndex(draw: real) returns (idx: nat)
      requires Valid() && IsDraw(draw)
      ensures idx == RandomBetween(0, |lanes| - 1, draw) && idx < |lanes|
    {
      idx := RandomBetween(0, |lanes| - 1, draw);
    }

    /** `__enqueue`: chains one item on lane `idx`; the new tail is returned. */
    method Chain(item: Item, idx: nat) returns (h: Handle)
      requires idx < |lanes|
      modifies this`lanes
      ensures lanes == Append(old(lanes), idx, [item])
      ensures h == Handle(idx, |lanes[idx]|)
    {
      lanes := lanes[idx := lanes[idx] + [item]];
      h := Handle(idx, |lanes[idx]|);
    }

    /** `enqueueCallableAt`: an index past the last lane throws before
        anything changes; a negative one finds no lane (`undefined.then`);
        otherwise the before-hook (if registered), the task and the
        after-hook (if registered) are chained on lane `idx` alone, and the
        last of them is returned. */
    method EnqueueCallableAt(task: TaskId, idx: int) returns (r: Result<Handle>)
      requires Valid()
      modifies this`lanes
      ensures Valid()
      ensures idx >= |lanes| ==> r == Err(IndexOutOfBounds) && lanes == old(lanes)
      ensures idx < 0 ==> r == Err(ReadOfUndefined) && lanes == old(lanes)
      ensures 0 <= idx < |lanes| ==>
                lanes == Append(old(lanes), idx, Placement(base.hooks, idx, task))
                && r == Ok(Handle(idx, |lanes[idx]|))
    {
      if idx > |lanes| - 1 {
        return Err(IndexOutOfBounds);
      }
      if idx < 0 {
        return Err(ReadOfUndefined);
      }
      ghost var start := lanes;
      var h: Handle;
      if Before in base.hooks {
        h := Chain(BeforeHook(idx), idx);
      }
      h := Chain(Run(task), idx);
      if After in base.hooks {
        h := Chain(AfterHook(idx), idx);
      }
      assert lanes[idx] == start[idx] + Placement(base.hooks, idx, task);
      AppendTagged(start, idx, Placement(base.hooks, idx, task));
      r := Ok(h);
    }

    /** `enqueue`: the task goes to the lane the draw picks. */
    method Enqueue(task: TaskId, draw: real) returns (h: Handle)
      requires Valid() && IsDraw(draw)
      modifies this
      ensures Valid()
      ensures var idx := RandomBetween(0, |lanes| - 1, draw);
              && lanes == Append(old(lanes), idx, Placement(base.hooks, idx, task))
              && h == Handle(idx, |lanes[idx]|)
    {
      var idx := ObtainIndex(draw);
      var r := EnqueueCallableAt(task, idx);
      h := r.value;
    }

    /** `enqueueOnSameExecutor`: despite its name, every element draws a
        lane of its own, so the k-th task goes to the lane of the k-th draw;
        the tail after the last one is returned, `null` for an empty array. */
    method EnqueueOnSameExecutor(tasks: seq<TaskId>, draws: seq<real>) returns (r: Option<Handle>)
      requires Valid() && |draws| == |tasks| && AllDraws(draws)
      modifies this
      ensures Valid()
      ensures lanes == PlaceEach(old(lanes), base.hooks, tasks, Draws(|lanes|, draws))
      ensures r == LastTail(lanes, Draws(|lanes|, draws))
    {
      r := PlaceInTurn(tasks, draws);
    }

    /** What `enqueueOnSameExecutor` is meant to do, as the round-robin and
        load-balancing strategies do it: one draw picks one lane, and every
        task goes to it in array order. */
    method EnqueueOnOneLane(tasks: seq<TaskId>, draw: real) returns (r: Option<Handle>)
      requires Valid() && IsDraw(draw)
      modifies this
      ensures Valid()
      ensures var idx := RandomBetween(0, |lanes| - 1, draw);
              && lanes == Append(old(lanes), idx, PlaceAll(base.hooks, idx, tasks))
              && Tasks(lanes[idx]) == Tasks(old(lanes)[idx]) + tasks
              && r == if tasks == [] then None else Some(Handle(idx, |lanes[idx]|))
    {
      var idx := ObtainIndex(draw);
      ghost var start := lanes;
      assert start[idx] + [] == start[idx];
      r := None;
      for i := 0 to |tasks|
        invariant Valid() && |lanes| == |start|
        invariant lanes == Append(start, idx, PlaceAll(base.hooks, idx, tasks[..i]))
        invariant r == if i == 0 then None else Some(Handle(idx, |lanes[idx]|))
      {
        var h := EnqueueCallableAt(tasks[i], idx);
        assert tasks[..i + 1][..i] == tasks[..i];
        AppendTwice(start, idx, PlaceAll(base.hooks, idx, tasks[..i]), Placement(base.hooks, idx, tasks[i]));
        r := Some(h.value);
      }
      assert tasks[..|tasks|] == tasks;
      SameLaneKeepsOrder(start, base.hooks, idx, tasks);
    }

    /** `enqueueMany`: after the array check, every task is placed with
        `enqueue` in array order, one draw each; the last tail is returned. */
    method EnqueueMany(arg: Submission, draws: seq<real>) returns (r: Result<Option<Handle>>)
      requires Valid() && AllDraws(draws)
      requires arg.Batch? ==> |draws| == |arg.tasks|
      modifies this
      ensures Valid()
      ensures arg.Single? ==> r == Err(NotAnArray) && lanes == old(lanes)
      ensures arg.Batch? ==>
                && lanes == PlaceEach(old(lanes), base.hooks, arg.tasks, Draws(|lanes|, draws))
                && r == Ok(LastTail(lanes, Draws(|lanes|, draws)))
    {
      var checked := EnqueueManyGuard(arg);
      if checked.Err? {
        return Err(checked.error);
      }
      var last := PlaceInTurn(checked.value, draws);
      r := Ok(last);
    }

    /** The `forEach` that `enqueueOnSameExecutor` and `enqueueMany` share:
        `enqueue` on each task in turn. */
    method PlaceInTurn(tasks: seq<TaskId>, draws: seq<real>) returns (last: Option<Handle>)
      requires Valid() && |draws| == |tasks| && AllDraws(draws)
      modifies this
      ensures Valid()
      ensures lanes == PlaceEach(old(lanes), base.hooks, tasks, Draws(|lanes|, draws))
      ensures last == LastTail(lanes, Draws(|lanes|, draws))
    {
      ghost var start, n := lanes, |lanes|;
      last := None;
      for i := 0 to |tasks|
        invariant Valid() && |lanes| == n
        invariant lanes == PlaceEach(start, base.hooks, tasks[..i], Draws(n, draws[..i]))
        invariant last == LastTail(lanes, Draws(n, draws[..i]))
      {
        var h := Enqueue(tasks[i], draws[i]);
        assert tasks[..i + 1][..i] == tasks[..i];
        assert draws[..i + 1][..i] == draws[..i];
        assert Draws(n, draws[..i + 1])[..i] == Draws(n, draws[..i]);
        last := Some(h);
      }
      assert tasks[..|tasks|] == tasks && draws[..|draws|] == draws;
    }

    /** `promise`: the current tail of the lane the draw picks; nothing
        changes. */
    method Promise(draw: real) returns (h: Handle)
      requires Valid() && IsDraw(draw)
      ensures var idx := RandomBetween(0, |lanes| - 1, draw);
              h == Handle(idx, |lanes[idx]|)
    {
      var idx := ObtainIndex(draw);
      h := Handle(idx, |lanes[idx]|);
    }
  }

  // ---------------------------------------------------------------------
  // Lemmas

  /** Every lane can be drawn: the draw `i / n` picks lane `i`. */
  lemma EveryLaneReachable(n: nat, i: nat)
    requires i < n
    ensures IsDraw(i as real / n as real)
    ensures RandomBetween(0, n - 1, i as real / n as real) == i
  {
    var r := i as real / n as real;
    assert r * n as real == i as real;
  }

  /** The lane drawn depends only on which of the `n` equal slices of
      [0, 1) the draw falls in: lane `i` is drawn exactly for the draws in
      [i / n, (i + 1) / n). */
  lemma DrawSlice(n: nat, r: real, i: nat)
    requires n > 0 && IsDraw(r)
    ensures RandomBetween(0, n - 1, r) == i <==> i as real <= r * n as real < (i + 1) as real
  {
  }

  /** `enqueueOnSameExecutor` as written can split a batch: on two lanes,
      the draws 0 and 0.5 send the first task to lane 0 and the second to
      lane 1. */
  lemma SameExecutorSplitsBatch()
    ensures AllDraws([0.0, 0.5])
    ensures Draws(2, [0.0, 0.5]) == [0, 1]
  {
    assert RandomBetween(0, 1, 0.5) == 1;
  }
}
