/** The load-balancing strategy: one descriptor per lane, holding the lane's
    index, its promise chain and its load (the number of its tasks that
    have not settled yet); the descriptors sit in a min-heap keyed by load,
    and every placement goes to the descriptor at the heap's root. */
module LoadBalancerStrategy {
  import opened Common
  import opened Lanes
  import opened StrategyBase
  import opened PriorityQueue

  /** The part of the strategy that decides placements: the heap of
      descriptor indices and the load of every descriptor. */
  datatype Balance = Balance(queue: seq<nat>, loads: seq<int>)

  /** Every heap entry names a descriptor, and the heap is not empty, so a
      placement can be made. */
  ghost predicate Ready(b: Balance)
  {
    InRange(b.queue, |b.loads|) && b.queue != []
  }

  /** No descriptor sits in the heap twice. */
  ghost predicate NoDup(q: seq<nat>)
  {
    forall i, j :: 0 <= i < j < |q| ==> q[i] != q[j]
  }

  /** The heap is ordered by load and holds each descriptor at most once. */
  ghost predicate Balanced(b: Balance)
  {
    HeapOrdered(b.queue, b.loads) && NoDup(b.queue)
  }

  /** Every lane's descriptor is in the heap. */
  ghost predicate Complete(b: Balance)
  {
    forall j :: 0 <= j < |b.loads| ==> j in b.queue
  }

  /** `n` descriptors with load 0, added in index order. */
  function Fresh(n: nat): (b: Balance)
    ensures |b.queue| == |b.loads| == n
  {
    Balance(seq(n, j => j), seq(n, _ => 0))
  }

  /** One `enqueue` of a single task: the root descriptor is polled, its
      load goes up by one, and it is added back. */
  function EnqueueOne(b: Balance): (r: Balance)
    requires Ready(b)
    ensures Ready(r) && |r.loads| == |b.loads| && |r.queue| == |b.queue|
  {
    var d := b.queue[0];
    var loads := b.loads[d := b.loads[d] + 1];
    var rest := Rest(b.queue, b.loads);
    assert InRange(rest + [d], |loads|);
    Balance(Swim(rest + [d], loads, |rest|), loads)
  }

  /** The balance after `k` single-task enqueues. */
  ghost function EnqueueTimes(b: Balance, k: nat): (r: Balance)
    requires Ready(b)
    ensures Ready(r) && |r.loads| == |b.loads| && |r.queue| == |b.queue|
    ensures Balanced(b) ==> Balanced(r)
  {
    if k == 0 then b
    else
      var c := EnqueueTimes(b, k - 1);
      EnqueueOneKeeps(c);
      EnqueueOne(c)
  }

  /** The lanes those `k` enqueues go to, in order. */
  ghost function Picks(b: Balance, k: nat): (idxs: seq<nat>)
    requires Ready(b)
    ensures |idxs| == k && AllBelow(idxs, |b.loads|)
  {
    if k == 0 then [] else Picks(b, k - 1) + [EnqueueTimes(b, k - 1).queue[0]]
  }

  /** The first heap position holding descriptor `d`, or `|q|` when there
      is none. */
  method Locate(q: seq<nat>, d: nat) returns (p: nat)
    ensures p <= |q| && (p < |q| ==> q[p] == d) && (p == |q| <==> d !in q)
  {
    p := 0;
    while p < |q| && q[p] != d
      invariant p <= |q|
      invariant forall k :: 0 <= k < p ==> q[k] != d
    {
      p := p + 1;
    }
  }

  /** The current promise of every descriptor in `queue`, in heap order. */
  function Promises(chains: seq<seq<Item>>, queue: seq<nat>): seq<Handle>
    requires InRange(queue, |chains|)
  {
    seq(|queue|, k requires 0 <= k < |queue| => Handle(queue[k], |chains[queue[k]]|))
  }

  class LoadBalancer {
    const base: Strategy
    /** `descriptor.promise` of every descriptor, by descriptor index. */
    var chains: seq<seq<Item>>
    /** `descriptor.load` of every descriptor, by descriptor index. */
    var loads: seq<int>
    /** The live part of the heap's backing array, as descriptor indices. */
    var queue: seq<nat>

    ghost predicate Valid()
      reads this, base
    {
      && base.size > 0 && |chains| == |loads| == base.size
      && Tagged(chains) && InRange(queue, |loads|)
    }

    function State(): Balance
      reads this
    {
      Balance(queue, loads)
    }

    /** `size` descriptors with load 0 and idle lanes, added to the heap in
        index order; no hooks. */
    constructor (size: nat)
      requires size > 0
      ensures Valid() && fresh(base)
      ensures chains == Idle(size) && State() == Fresh(size) && base.hooks == map[]
    {
      base := new Strategy(size);
      chains := [];
      loads := [];
      queue := [];
      new;
      var i := 0;
      while i < size
        invariant 0 <= i <= size
        invariant chains == Idle(i) && Balance(queue, loads) == Fresh(i) && base.hooks == map[]
      {
        FreshStep(i);
        chains := chains + [[]];
        loads := loads + [0];
        queue := Add(queue, loads, i);
        i := i + 1;
      }
    }

    /** `new LoadBalancerStrategy(opts)`: throws unless the size is
        positive. */
    static method Create(size: Option<int>) returns (r: Result<LoadBalancer>)
      ensures r.Err? <==> ValidateSize(size).Err?
      ensures r.Err? ==> r.error == SizeNotPositive
      ensures r.Ok? ==> fresh(r.value) && fresh(r.value.base) && r.value.Valid()
      ensures r.Ok? ==> && r.value.chains == Idle(size.value) && r.value.State() == Fresh(size.value)
                        && r.value.base.hooks == map[]
    {
      var checked := ValidateSize(size);
      if checked.Err? {
        return Err(checked.error);
      }
      var s := new LoadBalancer(checked.value);
      r := Ok(s);
    }

    /** `enqueueCallableOn`: the before-hook (if registered), the task and
        the after-hook (if registered) are chained on descriptor `d`'s
        promise; the last of them is returned. */
    method EnqueueCallableOn(task: TaskId, d: nat) returns (h: Handle)
      requires Valid() && d < |chains|
      modifies this`chains
      ensures Valid()
      ensures chains == Append(old(chains), d, Placement(base.hooks, d, task))
      ensures h == Handle(d, |chains[d]|)
    {
      ghost var start := chains;
      if Before in base.hooks {
        chains := chains[d := chains[d] + [BeforeHook(d)]];
      }
      chains := chains[d := chains[d] + [Run(task)]];
      if After in base.hooks {
        chains := chains[d := chains[d] + [AfterHook(d)]];
      }
      assert chains[d] == start[d] + Placement(base.hooks, d, task);
      AppendTagged(start, d, Placement(base.hooks, d, task));
      h := Handle(d, |chains[d]|);
    }

    /** `enqueueOnSameExecutor`: the root descriptor is polled once; then,
        for every task in order, the task is chained on it, its load goes up
        by one and it is added back to the heap, once per task. An empty
        heap has no descriptor to chain on, which throws as soon as there is
        a task. */
    method EnqueueOnSameExecutor(tasks: seq<TaskId>) returns (r: Result<Option<Handle>>)
      requires Valid()
      modifies this`chains, this`loads, this`queue
      ensures Valid()
      ensures old(queue) == [] ==>
                && r == (if tasks == [] then Ok(None) else Err(ReadOfUndefined))
                && chains == old(chains) && loads == old(loads) && queue == old(queue)
      ensures old(queue) != [] ==>
                var d := old(queue)[0];
                && chains == Append(old(chains), d, PlaceAll(base.hooks, d, tasks))
                && Tasks(chains[d]) == Tasks(old(chains)[d]) + tasks
                && loads == old(loads)[d := old(loads)[d] + |tasks|]
                && multiset(queue) == multiset(old(queue)) - multiset{d} + multiset{}[d := |tasks|]
                && r == Ok(if tasks == [] then None else Some(Handle(d, |chains[d]|)))
      ensures old(queue) != [] && tasks == [] ==> queue == Rest(old(queue), old(loads))
      ensures old(queue) != [] && |tasks| == 1 ==> State() == EnqueueOne(old(State()))
    {
      ghost var b0, q0 := State(), queue;
      var top := PollRoot();
      if top.None? {
        return if tasks == [] then Ok(None) else Err(ReadOfUndefined);
      }
      var d := top.value;
      assert d == q0[0];
      ghost var rest := queue;
      var last := RequeueEach(tasks, d);
      PollThenRequeue(q0, rest, queue, d, |tasks|);
      if |tasks| == 1 {
        OneTaskStep(b0, rest, d, State());
      }
      r := Ok(last);
    }

    /** `this.pool.poll()`: the root descriptor leaves the heap; an empty
        heap yields `undefined`. */
    method PollRoot() returns (top: Option<nat>)
      requires Valid()
      modifies this`queue
      ensures Valid()
      ensures old(queue) == [] ==> top == None && queue == old(queue)
      ensures old(queue) != [] ==>
                && top == Some(old(queue)[0]) && queue == Rest(old(queue), loads)
                && multiset(queue) == multiset(old(queue)) - multiset{old(queue)[0]}
      ensures Balanced(old(State())) ==> Balanced(State())
    {
      ghost var b0 := State();
      var rest;
      top, rest := Poll(queue, loads);
      if top.Some? && Balanced(b0) {
        PollKeepsBalance(b0);
      }
      queue := rest;
    }

    /** The `forEach` of `enqueueOnSameExecutor`: `Requeue` on every task
        in order, all on descriptor `d`. */
    method RequeueEach(tasks: seq<TaskId>, d: nat) returns (last: Option<Handle>)
      requires Valid() && d < |loads|
      modifies this`chains, this`loads, this`queue
      ensures Valid()
      ensures chains == Append(old(chains), d, PlaceAll(base.hooks, d, tasks))
      ensures Tasks(chains[d]) == Tasks(old(chains)[d]) + tasks
      ensures loads == old(loads)[d := old(loads)[d] + |tasks|]
      ensures multiset(queue) == multiset(old(queue)) + multiset{}[d := |tasks|]
      ensures tasks == [] ==> queue == old(queue)
      ensures |tasks| == 1 ==>
                InRange(old(queue) + [d], |loads|) && queue == Swim(old(queue) + [d], loads, |old(queue)|)
      ensures last == if tasks == [] then None else Some(Handle(d, |chains[d]|))
    {
      ghost var c0, l0, q0 := chains, loads, queue;
      assert c0[d] + [] == c0[d];
      last := None;
      for i := 0 to |tasks|
        invariant Valid() && |chains| == |c0|
        invariant chains == Append(c0, d, PlaceAll(base.hooks, d, tasks[..i]))
        invariant loads == l0[d := l0[d] + i]
        invariant multiset(queue) == multiset(q0) + multiset{}[d := i]
        invariant i == 0 ==> queue == q0
        invariant i == 1 ==> InRange(q0 + [d], |loads|) && queue == Swim(q0 + [d], loads, |q0|)
        invariant last == if i == 0 then None else Some(Handle(d, |chains[d]|))
      {
        ghost var q1 := queue;
        var h := Requeue(tasks[i], d);
        AppendAllStep(c0, base.hooks, d, tasks, i);
        CountStep(q0, q1, queue, d, i);
        last := Some(h);
      }
      assert tasks[..|tasks|] == tasks;
      SameLaneKeepsOrder(c0, base.hooks, d, tasks);
    }

    /** The body of `enqueueOnSameExecutor`'s loop: the task, wrapped, is
        chained on descriptor `d`, whose load goes up by one, and `d` is
        added to the heap. */
    method Requeue(task: TaskId, d: nat) returns (h: Handle)
      requires Valid() && d < |loads|
      modifies this`chains, this`loads, this`queue
      ensures Valid()
      ensures chains == Append(old(chains), d, Placement(base.hooks, d, task))
      ensures h == Handle(d, |chains[d]|)
      ensures loads == old(loads)[d := old(loads)[d] + 1]
      ensures InRange(old(queue) + [d], |loads|) && queue == Swim(old(queue) + [d], loads, |old(queue)|)
      ensures multiset(queue) == multiset(old(queue)) + multiset{d}
    {
      h := EnqueueCallableOn(task, d);
      loads := loads[d := loads[d] + 1];
      queue := Add(queue, loads, d);
    }

    /** `enqueue`: the task goes to the least-loaded descriptor, which is
        the heap's root while the heap is balanced. */
    method Enqueue(task: TaskId) returns (r: Result<Handle>)
      requires Valid()
      modifies this`chains, this`loads, this`queue
      ensures Valid()
      ensures old(queue) == [] ==>
                r == Err(ReadOfUndefined) && chains == old(chains) && State() == old(State())
      ensures old(queue) != [] ==>
                var d := old(queue)[0];
                && chains == Append(old(chains), d, Placement(base.hooks, d, task))
                && State() == EnqueueOne(old(State()))
                && r == Ok(Handle(d, |chains[d]|))
      ensures old(queue) != [] && Balanced(old(State())) ==> Balanced(State())
    {
      ghost var b0 := State();
      var s := EnqueueOnSameExecutor([task]);
      if s.Err? {
        return Err(s.error);
      }
      PlaceAllOne(base.hooks, b0.queue[0], task);
      if Balanced(b0) {
        EnqueueOneBalanced(b0);
      }
      r := Ok(s.value.value);
    }

    /** `enqueueMany`, inherited: after the array check, `enqueue` on every
        task in order; the tail of the last one is returned. On an empty
        heap the first task throws. */
    method EnqueueMany(arg: Submission) returns (r: Result<Option<Handle>>)
      requires Valid()
      modifies this`chains, this`loads, this`queue
      ensures Valid()
      ensures arg.Single? ==>
                r == Err(NotAnArray) && chains == old(chains) && State() == old(State())
      ensures arg.Batch? && old(queue) == [] ==>
                && r == (if arg.tasks == [] then Ok(None) else Err(ReadOfUndefined))
                && chains == old(chains) && State() == old(State())
      ensures arg.Batch? && old(queue) != [] ==>
                var picks := Picks(old(State()), |arg.tasks|);
                && State() == EnqueueTimes(old(State()), |arg.tasks|)
                && chains == PlaceEach(old(chains), base.hooks, arg.tasks, picks)
                && r == Ok(LastTail(chains, picks))
      ensures arg.Batch? && old(queue) != [] && Balanced(old(State())) ==> Balanced(State())
    {
      var checked := EnqueueManyGuard(arg);
      if checked.Err? {
        return Err(checked.error);
      }
      var tasks := checked.value;
      if queue == [] {
        return if tasks == [] then Ok(None) else Err(ReadOfUndefined);
      }
      r := EnqueueEach(tasks);
    }

    /** The loop of `enqueueMany` over a non-empty heap: each task goes
        through `enqueue` in turn. */
    method EnqueueEach(tasks: seq<TaskId>) returns (r: Result<Option<Handle>>)
      requires Valid() && queue != []
      modifies this`chains, this`loads, this`queue
      ensures Valid()
      ensures State() == EnqueueTimes(old(State()), |tasks|)
      ensures chains == PlaceEach(old(chains), base.hooks, tasks, Picks(old(State()), |tasks|))
      ensures r == Ok(LastTail(chains, Picks(old(State()), |tasks|)))
      ensures Balanced(old(State())) ==> Balanced(State())
    {
      ghost var b0, c0 := State(), chains;
      var last: Option<Handle> := None;
      for i := 0 to |tasks|
        invariant Valid() && |chains| == |c0|
        invariant State() == EnqueueTimes(b0, i)
        invariant chains == PlaceEach(c0, base.hooks, tasks[..i], Picks(b0, i))
        invariant last == LastTail(chains, Picks(b0, i))
        invariant Balanced(b0) ==> Balanced(State())
      {
        var h := Enqueue(tasks[i]);
        EnqueueTimesNext(b0, i);
        PicksNext(b0, i);
        PlaceEachStep(c0, base.hooks, tasks, Picks(b0, i + 1), i);
        last := Some(h.value);
      }
      assert tasks[..|tasks|] == tasks;
      r := Ok(last);
    }

    /** `all`: the current promise of every descriptor in the live part of
        the heap, in heap order. The package's backing array can also hold
        stale descriptors past the heap's size, which `all` maps too; those
        slots are not part of this state. */
    function All(): (hs: seq<Handle>)
      requires Valid()
      reads this, base
      ensures |hs| == |queue|
      ensures forall k :: 0 <= k < |queue| ==> hs[k] == Handle(queue[k], |chains[queue[k]]|)
    {
      Promises(chains, queue)
    }

    /** While every lane is in the heap, `all` waits on every lane's tail. */
    lemma AllCoversEveryLane()
      requires Valid() && Complete(State())
      ensures forall j :: 0 <= j < |chains| ==> Handle(j, |chains[j]|) in All()
    {
      forall j | 0 <= j < |chains| ensures Handle(j, |chains[j]|) in All() {
        assert j in queue;
        var k :| 0 <= k < |queue| && queue[k] == j;
        assert All()[k] == Handle(j, |chains[j]|);
      }
    }

    /** Once `promise` has polled a lane out of a balanced heap, the live
        heap has no entry for that lane, so `All` holds no promise of it. */
    lemma AllSkipsPolledLane(b: Balance)
      requires Valid() && Ready(b) && Balanced(b) && |b.loads| == |loads|
      requires queue == Rest(b.queue, b.loads)
      ensures forall h :: h in All() ==> h.lane != b.queue[0]
    {
      PollKeepsBalance(b);
      forall h | h in All() ensures h.lane != b.queue[0] {
        var k :| 0 <= k < |All()| && All()[k] == h;
        assert h.lane == queue[k];
      }
    }

    /** `promise`: the root descriptor is polled, and not added back; its
        current promise is returned. An empty heap throws. */
    method Promise() returns (r: Result<Handle>)
      requires Valid()
      modifies this`queue
      ensures Valid()
      ensures old(queue) == [] ==> r == Err(ReadOfUndefined) && queue == old(queue)
      ensures old(queue) != [] ==>
                var d := old(queue)[0];
                && r == Ok(Handle(d, |chains[d]|)) && queue == Rest(old(queue), loads)
                && multiset(queue) == multiset(old(queue)) - multiset{d}
      ensures Balanced(old(State())) ==> Balanced(State())
      ensures old(queue) != [] && Balanced(old(State())) ==>
                forall h :: h in All() ==> h.lane != old(queue)[0]
    {
      ghost var b := State();
      var top := PollRoot();
      if top.None? {
        return Err(ReadOfUndefined);
      }
      r := Ok(Handle(top.value, |chains[top.value]|));
      if Balanced(b) {
        AllSkipsPolledLane(b);
      }
    }

    /** What `promise` is meant to do: return the promise with the lowest
        load, which is the root's while the heap is balanced, and leave the
        heap as it is. */
    method PeekPromise() returns (r: Result<Handle>)
      requires Valid()
      ensures queue == [] ==> r == Err(ReadOfUndefined)
      ensures queue != [] ==> r == Ok(Handle(queue[0], |chains[queue[0]]|))
      ensures r.Ok? && Balanced(State()) ==>
                forall k :: 0 <= k < |queue| ==> loads[r.value.lane] <= loads[queue[k]]
    {
      if queue == [] {
        return Err(ReadOfUndefined);
      }
      var d := queue[0];
      if Balanced(State()) {
        RootIsMin(queue, loads);
      }
      r := Ok(Handle(d, |chains[d]|));
    }

    /** The continuation each task of `enqueueOnSameExecutor` is wrapped
        in, run when the task settles, as written: the descriptor's load
        goes down by one and the heap's ROOT is sifted down. This restores
        the order only when the descriptor is the root or not in the heap. */
    method SettleAsWritten(d: nat)
      requires Valid() && d < |loads|
      modifies this`loads, this`queue
      ensures Valid()
      ensures loads == old(loads)[d := old(loads)[d] - 1]
      ensures queue == if old(queue) == [] then [] else Sink(old(queue), loads, 0)
      ensures Balanced(old(State())) && (d !in old(queue) || d == old(queue)[0]) ==> Balanced(State())
    {
      ghost var b0 := State();
      loads := loads[d := loads[d] - 1];
      if queue != [] {
        if Balanced(b0) && d !in b0.queue {
          KeyChangeOutside(b0.queue, b0.loads, d, loads[d]);
          HeapHoleDown(b0.queue, loads, 0);
        } else if Balanced(b0) && d == b0.queue[0] {
          OnceIn(b0.queue, 0);
          RootKeyDecrease(b0.queue, b0.loads, loads[d]);
          HeapHoleDown(b0.queue, loads, 0);
        }
        queue := PercolateDown(queue, loads, 0);
        if Balanced(b0) {
          SubNoDup(b0.queue, queue);
        }
      }
    }

    /** The continuation as it is evidently meant: the descriptor's load
        goes down by one and the descriptor is sifted up from where it sits
        in the heap, which keeps the heap balanced wherever it sits. */
    method Settle(d: nat)
      requires Valid() && d < |loads|
      modifies this`loads, this`queue
      ensures Valid()
      ensures loads == old(loads)[d := old(loads)[d] - 1]
      ensures multiset(queue) == multiset(old(queue))
      ensures d !in old(queue) ==> queue == old(queue)
      ensures Balanced(old(State())) ==> Balanced(State())
    {
      ghost var b0 := State();
      loads := loads[d := loads[d] - 1];
      var p := Locate(queue, d);
      if p < |queue| {
        if Balanced(b0) {
          OnceIn(b0.queue, p);
          KeyDecreaseHoleUp(b0.queue, b0.loads, p, loads[d]);
        }
        queue := PercolateUp(queue, loads, p);
        if Balanced(b0) {
          SubNoDup(b0.queue, queue);
        }
      }
    }
  }

  // ---------------------------------------------------------------------
  // Lemmas

  /** Polling the root, raising its load and adding it back keeps the
      balance: the root was in the heap once, so it is absent while its
      load changes. */
  lemma ReAddKeepsBalance(rest: seq<nat>, loads: seq<int>, d: nat)
    requires HeapOrdered(rest, loads) && NoDup(rest) && d < |loads| && d !in rest
    ensures var l := loads[d := loads[d] + 1];
            InRange(rest + [d], |l|) && Balanced(Balance(Swim(rest + [d], l, |rest|), l))
  {
    var l := loads[d := loads[d] + 1];
    KeyChangeOutside(rest, loads, d, l[d]);
    assert HoleUp(rest + [d], l, |rest|);
    SwimKeeps(rest + [d], l, |rest|);
    SwimHeap(rest + [d], l, |rest|);
    var r := Swim(rest + [d], l, |rest|);
    assert multiset(r) == multiset(rest) + multiset{d};
    forall x ensures multiset(r)[x] <= 1 {
      DistinctCount(rest, x);
    }
    CountDistinct(r);
  }

  /** Every enqueue picks a least-loaded descriptor of the heap and keeps
      it balanced. */
  lemma EnqueueOneBalanced(b: Balance)
    requires Ready(b) && Balanced(b)
    ensures forall k :: 0 <= k < |b.queue| ==> b.loads[b.queue[0]] <= b.loads[b.queue[k]]
    ensures Balanced(EnqueueOne(b))
  {
    RootIsMin(b.queue, b.loads);
    PollKeepsBalance(b);
    ReAddKeepsBalance(Rest(b.queue, b.loads), b.loads, b.queue[0]);
  }

  /** Polling `d` and adding it back `n` times changes the heap's contents
      by exactly that. */
  lemma PollThenRequeue(q: seq<nat>, rest: seq<nat>, r: seq<nat>, d: nat, n: nat)
    requires multiset(rest) == multiset(q) - multiset{d}
    requires multiset(r) == multiset(rest) + multiset{}[d := n]
    ensures multiset(r) == multiset(q) - multiset{d} + multiset{}[d := n]
  {
  }

  /** Adding `d` once more to a heap that gained `i` copies of it. */
  lemma CountStep(q0: seq<nat>, q1: seq<nat>, q2: seq<nat>, d: nat, i: nat)
    requires multiset(q1) == multiset(q0) + multiset{}[d := i]
    requires multiset(q2) == multiset(q1) + multiset{d}
    ensures multiset(q2) == multiset(q0) + multiset{}[d := i + 1]
  {
    assert multiset{}[d := i + 1] == multiset{}[d := i] + multiset{d};
  }

  /** An enqueue keeps whatever balance there is. */
  lemma EnqueueOneKeeps(b: Balance)
    requires Ready(b)
    ensures Balanced(b) ==> Balanced(EnqueueOne(b))
  {
    if Balanced(b) {
      EnqueueOneBalanced(b);
    }
  }

  /** The state after polling the root and re-adding it with one more
      task is one enqueue, and keeps the balance. */
  lemma OneTaskStep(b0: Balance, rest: seq<nat>, d: nat, b1: Balance)
    requires Ready(b0) && d == b0.queue[0] && rest == Rest(b0.queue, b0.loads)
    requires b1.loads == b0.loads[d := b0.loads[d] + 1]
    requires InRange(rest + [d], |b1.loads|) && b1.queue == Swim(rest + [d], b1.loads, |rest|)
    ensures b1 == EnqueueOne(b0)
  {
    var loads := b0.loads[d := b0.loads[d] + 1];
    assert EnqueueOne(b0) == Balance(Swim(rest + [d], loads, |rest|), loads);
  }

  /** Polling a balanced heap leaves it balanced, without the root. */
  lemma PollKeepsBalance(b: Balance)
    requires Ready(b) && Balanced(b)
    ensures Balanced(Balance(Rest(b.queue, b.loads), b.loads))
    ensures b.queue[0] !in Rest(b.queue, b.loads)
  {
    var rest := Rest(b.queue, b.loads);
    RestKeeps(b.queue, b.loads);
    DistinctCount(b.queue, b.queue[0]);
    assert multiset(rest)[b.queue[0]] == 0;
    SubNoDup(b.queue, rest);
  }

  /** A descriptor occurs at most once in a heap without duplicates. */
  lemma {:induction false} DistinctCount(q: seq<nat>, x: nat)
    requires NoDup(q)
    ensures multiset(q)[x] <= 1
  {
    if q != [] {
      var n := |q| - 1;
      assert q == q[..n] + [q[n]];
      DistinctCount(q[..n], x);
      if q[n] == x {
        assert x !in q[..n];
      }
    }
  }

  /** A heap in which every descriptor counts at most once has no
      duplicates. */
  lemma CountDistinct(q: seq<nat>)
    requires forall x :: multiset(q)[x] <= 1
    ensures NoDup(q)
  {
    forall i, j | 0 <= i < j < |q| ensures q[i] != q[j] {
      assert q[i] in multiset(q);
      OnlyAt(q, i, j);
    }
  }

  lemma OnceIn(q: seq<nat>, p: nat)
    requires NoDup(q) && p < |q|
    ensures multiset(q)[q[p]] == 1
  {
    DistinctCount(q, q[p]);
    assert q[p] in multiset(q);
  }

  /** Taking entries out of a heap without duplicates leaves none. */
  lemma SubNoDup(q: seq<nat>, r: seq<nat>)
    requires NoDup(q) && multiset(r) <= multiset(q)
    ensures NoDup(r)
  {
    forall x ensures multiset(r)[x] <= 1 {
      DistinctCount(q, x);
    }
    CountDistinct(r);
  }

  /** One more enqueue extends the run by one step. */
  lemma EnqueueTimesNext(b: Balance, k: nat)
    requires Ready(b)
    ensures EnqueueTimes(b, k + 1) == EnqueueOne(EnqueueTimes(b, k))
  {
  }

  /** One more enqueue adds the root it polls to the picks. */
  lemma PicksNext(b: Balance, k: nat)
    requires Ready(b)
    ensures Picks(b, k + 1)[..k] == Picks(b, k)
    ensures Picks(b, k + 1)[k] == EnqueueTimes(b, k).queue[0]
  {
    var p := Picks(b, k);
    assert Picks(b, k + 1) == p + [EnqueueTimes(b, k).queue[0]];
    assert (p + [EnqueueTimes(b, k).queue[0]])[..k] == p;
  }

  /** `promise` as written takes the only descriptor of a one-lane pool out
      of the heap for good, so the next `enqueue` has nothing to poll and
      throws. */
  lemma PromiseEmptiesOneLanePool()
    ensures Ready(Fresh(1))
    ensures Rest(Fresh(1).queue, Fresh(1).loads) == []
    ensures !Ready(Balance(Rest(Fresh(1).queue, Fresh(1).loads), Fresh(1).loads))
  {
  }

  /** One more descriptor, with load 0, comes last in a fresh heap, since
      no entry is heavier than it. */
  lemma FreshStep(n: nat)
    ensures Idle(n + 1) == Idle(n) + [[]]
    ensures Fresh(n + 1) == Balance(Fresh(n).queue + [n], Fresh(n).loads + [0])
    ensures forall k :: 0 <= k < n ==> (Fresh(n).loads + [0])[Fresh(n).queue[k]] <= 0
  {
  }

  /** A fresh strategy is balanced and holds every descriptor. */
  lemma FreshBalanced(n: nat)
    ensures Ready(Fresh(n)) <==> n > 0
    ensures Balanced(Fresh(n)) && Complete(Fresh(n))
  {
    var q := Fresh(n).queue;
    forall j | 0 <= j < n ensures j in q {
      assert q[j] == j;
    }
  }

  /** The enqueue keeps every descriptor in the heap. */
  lemma EnqueueOneComplete(b: Balance)
    requires Ready(b) && Complete(b)
    ensures Complete(EnqueueOne(b))
  {
    var d := b.queue[0];
    var l := b.loads[d := b.loads[d] + 1];
    var rest := Rest(b.queue, b.loads);
    RestKeeps(b.queue, b.loads);
    SwimKeeps(rest + [d], l, |rest|);
    var r := Swim(rest + [d], l, |rest|);
    assert multiset(r) == multiset(rest) + multiset{d};
    assert multiset(rest) == multiset(b.queue) - multiset{d};
    forall j | 0 <= j < |l| ensures j in r {
      assert j in b.queue;
      assert j in multiset(b.queue);
      assert j in multiset(r);
    }
  }

  /** The pick of a balanced, complete heap is a least-loaded lane of the
      whole pool. */
  lemma PickIsLeastLoaded(b: Balance)
    requires Ready(b) && Balanced(b) && Complete(b)
    ensures forall j :: 0 <= j < |b.loads| ==> b.loads[b.queue[0]] <= b.loads[j]
  {
    RootIsMin(b.queue, b.loads);
    forall j | 0 <= j < |b.loads| ensures b.loads[b.queue[0]] <= b.loads[j] {
      assert j in b.queue;
      var k :| 0 <= k < |b.queue| && b.queue[k] == j;
    }
  }

  /** Sifting the root down after lowering the load of a descriptor deeper
      in the heap can leave the heap out of order. Seven enqueues on seven
      fresh lanes leave every load at 1 and the heap below
      (`LoadBalancerTrace.SevenLanesHeap`). When lane 0's task settles,
      lane 0, at position 3, is lighter than its parent, lane 1 at
      position 1; the root re-sift moves nothing, and the next pick is
      lane 2, whose load is 1. */
  lemma RootResiftMissesSettledLane()
    ensures var q, before := [2, 1, 4, 0, 6, 3, 5], seq(7, _ => 1);
            var after := before[0 := 0];
            && Balanced(Balance(q, before))
            && Sink(q, after, 0) == q
            && !HeapOrdered(q, after)
            && after[q[0]] > after[0]
  {
    var q, before := [2, 1, 4, 0, 6, 3, 5], seq(7, _ => 1);
    var after := before[0 := 0];
    assert Parent(3) == 1 && after[q[1]] > after[q[3]];
  }
}
