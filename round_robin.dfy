/** The round-robin strategy: a cursor, taken modulo the number of lanes,
    picks the lane of every placement, so lanes are used in the cyclic order
    0, 1, ..., n-1, 0, 1, ... */
module RoundRobinStrategy {
  import opened Common
  import opened Lanes
  import opened StrategyBase

  /** The lanes returned by `k` successive `obtainIndex` calls on `n` lanes
      when the cursor starts at `cursor`. */
  function Rotation(n: nat, cursor: nat, k: nat): (idxs: seq<nat>)
    requires n > 0
    ensures |idxs| == k && AllBelow(idxs, n)
  {
    seq(k, i requires 0 <= i => (cursor + i) % n)
  }

  class RoundRobin {
    const base: Strategy
    /** `this.pool`: the promise chain of every lane. */
    var lanes: seq<seq<Item>>
    /** `this.index`: the number of indices handed out so far. */
    var cursor: nat

    ghost predicate Valid()
      reads this, base
    {
      base.size > 0 && |lanes| == base.size && Tagged(lanes)
    }

    /** `size` idle lanes, the cursor at 0, no hooks. */
    constructor (size: nat)
      requires size > 0
      ensures Valid() && fresh(base)
      ensures lanes == Idle(size) && cursor == 0 && base.hooks == map[]
    {
      base := new Strategy(size);
      cursor := 0;
      lanes := [];
      new;
      var i := 0;
      while i < size
        invariant 0 <= i <= size
        invariant lanes == Idle(i) && cursor == 0 && base.hooks == map[]
      {
        lanes := lanes + [[]];
        i := i + 1;
      }
    }

    /** `new RoundRobinStrategy(opts)`: throws unless the size is positive. */
    static method Create(size: Option<int>) returns (r: Result<RoundRobin>)
      ensures r.Err? <==> ValidateSize(size).Err?
      ensures r.Err? ==> r.error == SizeNotPositive
      ensures r.Ok? ==> fresh(r.value) && fresh(r.value.base) && r.value.Valid()
      ensures r.Ok? ==> r.value.lanes == Idle(size.value) && r.value.cursor == 0 && r.value.base.hooks == map[]
    {
      var checked := ValidateSize(size);
      if checked.Err? {
        return Err(checked.error);
      }
      var s := new RoundRobin(checked.value);
      r := Ok(s);
    }

    /** `obtainIndex`: the cursor modulo the lane count; the cursor moves on
        by one. */
    method ObtainIndex() returns (idx: nat)
      requires Valid()
      modifies this`cursor
      ensures idx == old(cursor) % |lanes| && idx < |lanes|
      ensures cursor == old(cursor) + 1
    {
      idx := cursor % |lanes|;
      cursor := cursor + 1;
    }

    /** `__enqueue`: chains one item on lane `idx`; the new tail is returned. */
    method Chain(item: Item, idx: nat) returns (h: Handle)
      requires idx < |lanes|
      modifies this`lanes
      ensures lanes == Append(old(lanes), idx, [item])
      ensures h == Handle(idx, |lanes[idx]|)
    {
      lanes := lanes[idx := lanes[idx] + [item]];
      h := Handle(idx, |lanes[idx]|);
    }

    /** `enqueueCallableAt`: an index past the last lane throws before
        anything changes; a negative one finds no lane (`undefined.then`);
        otherwise the before-hook (if registered), the task and the
        after-hook (if registered) are chained on lane `idx` alone, and the
        last of them is returned. */
    method EnqueueCallableAt(task: TaskId, idx: int) returns (r: Result<Handle>)
      requires Valid()
      modifies this`lanes
      ensures Valid()
      ensures idx >= |lanes| ==> r == Err(IndexOutOfBounds) && lanes == old(lanes)
      ensures idx < 0 ==> r == Err(ReadOfUndefined) && lanes == old(lanes)
      ensures 0 <= idx < |lanes| ==>
                lanes == Append(old(lanes), idx, Placement(base.hooks, idx, task))
                && r == Ok(Handle(idx, |lanes[idx]|))
    {
      if idx > |lanes| - 1 {
        return Err(IndexOutOfBounds);
      }
      if idx < 0 {
        return Err(ReadOfUndefined);
      }
      ghost var start := lanes;
      var h: Handle;
      if Before in base.hooks {
        h := Chain(BeforeHook(idx), idx);
      }
      h := Chain(Run(task), idx);
      if After in base.hooks {
        h := Chain(AfterHook(idx), idx);
      }
      assert lanes[idx] == start[idx] + Placement(base.hooks, idx, task);
      AppendTagged(start, idx, Placement(base.hooks, idx, task));
      r := Ok(h);
    }

    /** `enqueueOnSameExecutor`: one `obtainIndex` call; every task goes to
        that lane, in array order; the tail after the last one is returned,
        `null` for an empty array. */
    method EnqueueOnSameExecutor(tasks: seq<TaskId>) returns (r: Option<Handle>)
      requires Valid()
      modifies this
      ensures Valid()
      ensures cursor == old(cursor) + 1
      ensures lanes == Append(old(lanes), old(cursor) % |lanes|, PlaceAll(base.hooks, old(cursor) % |lanes|, tasks))
      ensures Tasks(lanes[old(cursor) % |lanes|]) == Tasks(old(lanes)[old(cursor) % |lanes|]) + tasks
      ensures r == if tasks == [] then None else Some(Handle(old(cursor) % |lanes|, |lanes[old(cursor) % |lanes|]|))
    {
      var idx := ObtainIndex();
      ghost var start := lanes;
      assert start[idx] + [] == start[idx];
      r := None;
      for i := 0 to |tasks|
        invariant Valid() && cursor == old(cursor) + 1
        invariant lanes == Append(start, idx, PlaceAll(base.hooks, idx, tasks[..i]))
        invariant r == if i == 0 then None else Some(Handle(idx, |lanes[idx]|))
      {
        var h := EnqueueCallableAt(tasks[i], idx);
        assert tasks[..i + 1][..i] == tasks[..i];
        AppendTwice(start, idx, PlaceAll(base.hooks, idx, tasks[..i]), Placement(base.hooks, idx, tasks[i]));
        r := Some(h.value);
      }
      assert tasks[..|tasks|] == tasks;
      SameLaneKeepsOrder(start, base.hooks, idx, tasks);
    }

    /** `enqueue`: the task goes to lane `cursor mod n`, and the cursor
        moves on by one. */
    method Enqueue(task: TaskId) returns (h: Handle)
      requires Valid()
      modifies this
      ensures Valid()
      ensures cursor == old(cursor) + 1
      ensures lanes == Append(old(lanes), old(cursor) % |lanes|, Placement(base.hooks, old(cursor) % |lanes|, task))
      ensures h == Handle(old(cursor) % |lanes|, |lanes[old(cursor) % |lanes|]|)
    {
      var idx := ObtainIndex();
      var r := EnqueueCallableAt(task, idx);
      h := r.value;
    }

    /** `enqueueMany`: after the array check, every task is placed with
        `enqueue` in array order, so the k-th task lands on lane
        `(cursor + k) mod n`; the last tail is returned. */
    method EnqueueMany(arg: Submission) returns (r: Result<Option<Handle>>)
      requires Valid()
      modifies this
      ensures Valid()
      ensures arg.Single? ==> r == Err(NotAnArray) && lanes == old(lanes) && cursor == old(cursor)
      ensures arg.Batch? ==>
                var idxs := Rotation(|lanes|, old(cursor), |arg.tasks|);
                && cursor == old(cursor) + |arg.tasks|
                && lanes == PlaceEach(old(lanes), base.hooks, arg.tasks, idxs)
                && r == Ok(LastTail(lanes, idxs))
    {
      var checked := EnqueueManyGuard(arg);
      if checked.Err? {
        return Err(checked.error);
      }
      var tasks := checked.value;
      ghost var start, c0, n := lanes, cursor, |lanes|;
      var last: Option<Handle> := None;
      for i := 0 to |tasks|
        invariant Valid() && |lanes| == n && cursor == c0 + i
        invariant lanes == PlaceEach(start, base.hooks, tasks[..i], Rotation(n, c0, i))
        invariant last == LastTail(lanes, Rotation(n, c0, i))
      {
        var h := Enqueue(tasks[i]);
        assert tasks[..i + 1][..i] == tasks[..i];
        assert Rotation(n, c0, i + 1)[..i] == Rotation(n, c0, i);
        last := Some(h);
      }
      assert tasks[..|tasks|] == tasks;
      r := Ok(last);
    }

    /** `all`: one promise per lane, in lane order, each the lane's current
        tail, so it waits for everything queued so far. */
    function All(): (hs: seq<Handle>)
      reads this
      ensures |hs| == |lanes|
      ensures forall i :: 0 <= i < |lanes| ==> hs[i] == Handle(i, |lanes[i]|)
    {
      Tails(lanes)
    }

    /** `promise`: the tail of the lane `obtainIndex` picks; this too moves
        the cursor. */
    method Promise() returns (h: Handle)
      requires Valid()
      modifies this`cursor
      ensures cursor == old(cursor) + 1
      ensures h == Handle(old(cursor) % |lanes|, |lanes[old(cursor) % |lanes|]|)
    {
      var idx := ObtainIndex();
      h := Handle(idx, |lanes[idx]|);
    }
  }

  // ---------------------------------------------------------------------
  // Lemmas

  /** For five lanes and a fresh cursor, ten placements visit
      0,1,2,3,4,0,1,2,3,4. */
  lemma RotationOfFive()
    ensures Rotation(5, 0, 10) == [0, 1, 2, 3, 4, 0, 1, 2, 3, 4]
  {
  }

  /** Two placements share a lane exactly when a multiple of `n` placements
      separates them. */
  lemma SameLaneIffMultiple(n: nat, cursor: nat, i: nat, j: nat)
    requires n > 0 && i <= j
    ensures (cursor + i) % n == (cursor + j) % n <==> (j - i) % n == 0
  {
    var a: int, d: int := cursor + i, j - i;
    assert cursor + j == a + d;
    ModOfSum(a, d, n);
  }

  /** Remainders add, less one `n` when the sum reaches `n`. */
  lemma ModOfSum(a: int, d: int, n: nat)
    requires n > 0
    ensures (a + d) % n == if a % n + d % n < n then a % n + d % n else a % n + d % n - n
  {
    var qa: int, ra: int := a / n, a % n;
    var qd: int, rd: int := d / n, d % n;
    assert a == qa * n + ra && d == qd * n + rd;
    assert (qa + qd) * n == qa * n + qd * n;
    if ra + rd < n {
      DivModUnique(a + d, n, qa + qd, ra + rd);
    } else {
      assert (qa + qd + 1) * n == (qa + qd) * n + n;
      DivModUnique(a + d, n, qa + qd + 1, ra + rd - n);
    }
  }

  lemma ModOfOffset(q: int, n: nat, r: int)
    requires n > 0 && 0 < r < n && q * n + r >= 0
    ensures (q * n + r) % n == r
  {
    DivModUnique(q * n + r, n, q, r);
  }

  lemma DivModUnique(m: int, n: nat, q: int, r: int)
    requires n > 0 && 0 <= r < n && m == q * n + r
    ensures m % n == r && m / n == q
  {
    var q', r' := m / n, m % n;
    assert m == q' * n + r';
    assert (q - q') * n == r' - r;
    if q > q' {
      assert (q - q') * n >= n by { MulMonotone(q - q', n); }
    } else if q < q' {
      assert (q' - q) * n >= n by { MulMonotone(q' - q, n); }
    }
  }

  lemma MulMonotone(k: int, n: nat)
    requires k >= 1
    ensures k * n >= n
  {
  }

  /** Any `n` consecutive placements go to `n` different lanes: each lane
      gets exactly one task per round. */
  lemma RotationRoundIsDistinct(n: nat, cursor: nat)
    requires n > 0
    ensures forall i, j :: 0 <= i < j < n ==> Rotation(n, cursor, n)[i] != Rotation(n, cursor, n)[j]
  {
    forall i, j | 0 <= i < j < n ensures Rotation(n, cursor, n)[i] != Rotation(n, cursor, n)[j] {
      var d := j - i;
      SameLaneIffMultiple(n, cursor, i, j);
      ModOfOffset(0, n, d);
      assert d % n != 0;
    }
  }
}
