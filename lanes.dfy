/** A lane is one serial executor: a promise chain to which work is appended
    with `.then`. The model keeps the chain as the sequence of items appended
    to it so far; running them, in order, is the promise runtime's business. */
module Lanes {
  import opened Common

  /** Identity of a zero-argument callable handed to the pool. */
  type TaskId = nat

  /** Identity of a hook callback registered with `beforeEach`/`afterEach`. */
  type HookFn = nat

  datatype HookKind = Before | After

  /** The strategy's `hooks` object: at most one callback per kind. */
  type Hooks = map<HookKind, HookFn>

  /** One `.then` continuation on a lane: a wrapped hook carrying the lane
      index it reports, or a task. */
  datatype Item = BeforeHook(lane: nat) | Run(task: TaskId) | AfterHook(lane: nat)

  /** The promise returned by a `.then` on lane `lane`: it settles once the
      first `count` items of that lane have settled. The lane's initial
      `Promise.resolve()` is `Handle(lane, 0)`. */
  datatype Handle = Handle(lane: nat, count: nat)

  /** The tasks of a chain, in chain order, hooks dropped. */
  function Tasks(chain: seq<Item>): seq<TaskId>
  {
    if chain == [] then []
    else if chain[0].Run? then [chain[0].task] + Tasks(chain[1..])
    else Tasks(chain[1..])
  }

  /** Every hook item of `chain` reports lane `idx`. */
  ghost predicate TaggedWith(chain: seq<Item>, idx: nat)
  {
    forall k :: 0 <= k < |chain| && !chain[k].Run? ==> chain[k].lane == idx
  }

  /** Every hook item queued on lane `i` reports `i`. */
  ghost predicate Tagged(lanes: seq<seq<Item>>)
  {
    forall i :: 0 <= i < |lanes| ==> TaggedWith(lanes[i], i)
  }

  /** `n` idle lanes, as the strategies' constructors create them. */
  function Idle(n: nat): seq<seq<Item>>
  {
    seq(n, _ => [])
  }

  /** The items one placement of `task` on lane `idx` appends, in order: the
      before-hook if one is registered, the task, the after-hook if one is
      registered. */
  function Placement(hooks: Hooks, idx: nat, task: TaskId): (items: seq<Item>)
    ensures Tasks(items) == [task]
    ensures TaggedWith(items, idx)
    ensures |items| == 1 + (if Before in hooks then 1 else 0) + (if After in hooks then 1 else 0)
    ensures items[0] == BeforeHook(idx) <==> Before in hooks
    ensures items[|items| - 1] == AfterHook(idx) <==> After in hooks
  {
    var items := (if Before in hooks then [BeforeHook(idx)] else []) + [Run(task)]
                 + (if After in hooks then [AfterHook(idx)] else []);
    TasksConcat((if Before in hooks then [BeforeHook(idx)] else []) + [Run(task)],
                if After in hooks then [AfterHook(idx)] else []);
    TasksConcat(if Before in hooks then [BeforeHook(idx)] else [], [Run(task)]);
    items
  }

  /** The items placing every task of `tasks` on lane `idx` appends. */
  function PlaceAll(hooks: Hooks, idx: nat, tasks: seq<TaskId>): seq<Item>
  {
    if tasks == [] then []
    else PlaceAll(hooks, idx, tasks[..|tasks| - 1]) + Placement(hooks, idx, tasks[|tasks| - 1])
  }

  /** Lane `idx` with `items` appended; every other lane as it was. */
  function Append(lanes: seq<seq<Item>>, idx: nat, items: seq<Item>): seq<seq<Item>>
    requires idx < |lanes|
  {
    lanes[idx := lanes[idx] + items]
  }

  ghost predicate AllBelow(idxs: seq<nat>, n: nat)
  {
    forall k :: 0 <= k < |idxs| ==> idxs[k] < n
  }

  /** The lanes after placing `tasks[k]` on lane `idxs[k]`, for k in order. */
  function PlaceEach(lanes: seq<seq<Item>>, hooks: Hooks, tasks: seq<TaskId>, idxs: seq<nat>): (r: seq<seq<Item>>)
    requires |idxs| == |tasks| && AllBelow(idxs, |lanes|)
    ensures |r| == |lanes|
  {
    if tasks == [] then lanes
    else
      var n := |tasks| - 1;
      Append(PlaceEach(lanes, hooks, tasks[..n], idxs[..n]), idxs[n], Placement(hooks, idxs[n], tasks[n]))
  }

  /** The tasks of `tasks` whose lane in `idxs` is `j`, in order. */
  function Picked(tasks: seq<TaskId>, idxs: seq<nat>, j: nat): seq<TaskId>
    requires |idxs| == |tasks|
  {
    if tasks == [] then []
    else
      var n := |tasks| - 1;
      Picked(tasks[..n], idxs[..n], j) + (if idxs[n] == j then [tasks[n]] else [])
  }

  /** The current tail of every lane, in lane order. */
  function Tails(lanes: seq<seq<Item>>): seq<Handle>
  {
    seq(|lanes|, i requires 0 <= i < |lanes| => Handle(i, |lanes[i]|))
  }

  /** The promise returned after the last placement of a batch: the tail of
      the lane that received the last task, or `null` for an empty batch. */
  function LastTail(lanes: seq<seq<Item>>, idxs: seq<nat>): Option<Handle>
    requires AllBelow(idxs, |lanes|)
  {
    if idxs == [] then None else Some(Handle(idxs[|idxs| - 1], |lanes[idxs[|idxs| - 1]]|))
  }

  // ---------------------------------------------------------------------
  // Lemmas

  lemma {:induction false} TasksConcat(a: seq<Item>, b: seq<Item>)
    ensures Tasks(a + b) == Tasks(a) + Tasks(b)
  {
    if a == [] {
      assert a + b == b;
    } else {
      assert (a + b)[1..] == a[1..] + b;
      TasksConcat(a[1..], b);
    }
  }

  lemma PlaceAllOne(hooks: Hooks, idx: nat, task: TaskId)
    ensures PlaceAll(hooks, idx, [task]) == Placement(hooks, idx, task)
  {
    assert [task][..0] == [];
  }

  /** Placing a one-element list is one placement. */
  lemma PlaceEachOne(lanes: seq<seq<Item>>, hooks: Hooks, task: TaskId, idx: nat)
    requires idx < |lanes|
    ensures AllBelow([idx], |lanes|)
    ensures PlaceEach(lanes, hooks, [task], [idx]) == Append(lanes, idx, Placement(hooks, idx, task))
  {
    assert [task][..0] == [] && [idx][..0] == [];
  }

  /** Chaining one more task of `tasks` on lane `idx` extends the lanes
      that hold the prefix's items. */
  lemma AppendAllStep(lanes: seq<seq<Item>>, hooks: Hooks, idx: nat, tasks: seq<TaskId>, i: nat)
    requires idx < |lanes| && i < |tasks|
    ensures Append(Append(lanes, idx, PlaceAll(hooks, idx, tasks[..i])), idx, Placement(hooks, idx, tasks[i]))
            == Append(lanes, idx, PlaceAll(hooks, idx, tasks[..i + 1]))
  {
    assert tasks[..i + 1][..i] == tasks[..i];
    AppendTwice(lanes, idx, PlaceAll(hooks, idx, tasks[..i]), Placement(hooks, idx, tasks[i]));
  }

  /** Placing one more task of `tasks` extends the placement of the prefix. */
  lemma PlaceEachStep(lanes: seq<seq<Item>>, hooks: Hooks, tasks: seq<TaskId>, idxs: seq<nat>, i: nat)
    requires i < |tasks| && |idxs| == i + 1 && AllBelow(idxs, |lanes|)
    ensures AllBelow(idxs[..i], |lanes|)
    ensures PlaceEach(lanes, hooks, tasks[..i + 1], idxs)
            == Append(PlaceEach(lanes, hooks, tasks[..i], idxs[..i]), idxs[i], Placement(hooks, idxs[i], tasks[i]))
  {
    assert tasks[..i + 1][..i] == tasks[..i];
  }

  /** Placing a list of tasks on one lane queues exactly those tasks, in
      their order, each with its hooks. */
  lemma {:induction false} PlaceAllTasks(hooks: Hooks, idx: nat, tasks: seq<TaskId>)
    ensures Tasks(PlaceAll(hooks, idx, tasks)) == tasks
    ensures TaggedWith(PlaceAll(hooks, idx, tasks), idx)
  {
    if tasks != [] {
      var n := |tasks| - 1;
      var prefix := PlaceAll(hooks, idx, tasks[..n]);
      var last := Placement(hooks, idx, tasks[n]);
      PlaceAllTasks(hooks, idx, tasks[..n]);
      TasksConcat(prefix, last);
      ConcatTagged(prefix, last, idx);
      assert tasks[..n] + [tasks[n]] == tasks;
    }
  }

  /** A batch appended to one lane sits on that lane after what it held,
      in submission order, so its tasks run one after the other in that
      order. */
  lemma SameLaneKeepsOrder(lanes: seq<seq<Item>>, hooks: Hooks, idx: nat, tasks: seq<TaskId>)
    requires idx < |lanes|
    ensures Tasks(Append(lanes, idx, PlaceAll(hooks, idx, tasks))[idx]) == Tasks(lanes[idx]) + tasks
  {
    PlaceAllTasks(hooks, idx, tasks);
    TasksConcat(lanes[idx], PlaceAll(hooks, idx, tasks));
  }

  lemma ConcatTagged(a: seq<Item>, b: seq<Item>, idx: nat)
    requires TaggedWith(a, idx) && TaggedWith(b, idx)
    ensures TaggedWith(a + b, idx)
  {
    forall k | 0 <= k < |a + b| && !(a + b)[k].Run? ensures (a + b)[k].lane == idx {
      if k < |a| { assert (a + b)[k] == a[k]; } else { assert (a + b)[k] == b[k - |a|]; }
    }
  }

  lemma AppendTagged(lanes: seq<seq<Item>>, idx: nat, items: seq<Item>)
    requires idx < |lanes| && Tagged(lanes) && TaggedWith(items, idx)
    ensures Tagged(Append(lanes, idx, items))
  {
    var r := Append(lanes, idx, items);
    forall i | 0 <= i < |r| ensures TaggedWith(r[i], i) {
      if i == idx {
        assert forall k :: 0 <= k < |lanes[idx]| ==> r[i][k] == lanes[idx][k];
        assert forall k :: |lanes[idx]| <= k < |r[i]| ==> r[i][k] == items[k - |lanes[idx]|];
      }
    }
  }

  /** Placements keep every hook item on the lane it reports. */
  lemma {:induction false} PlaceEachTagged(lanes: seq<seq<Item>>, hooks: Hooks, tasks: seq<TaskId>, idxs: seq<nat>)
    requires |idxs| == |tasks| && AllBelow(idxs, |lanes|) && Tagged(lanes)
    ensures Tagged(PlaceEach(lanes, hooks, tasks, idxs))
  {
    if tasks != [] {
      var n := |tasks| - 1;
      PlaceEachTagged(lanes, hooks, tasks[..n], idxs[..n]);
      AppendTagged(PlaceEach(lanes, hooks, tasks[..n], idxs[..n]), idxs[n], Placement(hooks, idxs[n], tasks[n]));
    }
  }

  /** Lane `j` receives exactly the tasks routed to it, in submission order,
      after what it already held. */
  lemma {:induction false} PlaceEachLane(lanes: seq<seq<Item>>, hooks: Hooks, tasks: seq<TaskId>, idxs: seq<nat>, j: nat)
    requires |idxs| == |tasks| && AllBelow(idxs, |lanes|) && j < |lanes|
    ensures Tasks(PlaceEach(lanes, hooks, tasks, idxs)[j]) == Tasks(lanes[j]) + Picked(tasks, idxs, j)
  {
    if tasks != [] {
      var n := |tasks| - 1;
      var prev := PlaceEach(lanes, hooks, tasks[..n], idxs[..n]);
      var item := Placement(hooks, idxs[n], tasks[n]);
      assert PlaceEach(lanes, hooks, tasks, idxs) == Append(prev, idxs[n], item);
      assert Picked(tasks, idxs, j) == Picked(tasks[..n], idxs[..n], j) + (if idxs[n] == j then [tasks[n]] else []);
      PlaceEachLane(lanes, hooks, tasks[..n], idxs[..n], j);
      if idxs[n] == j {
        TasksConcat(prev[j], item);
      } else {
        assert Append(prev, idxs[n], item)[j] == prev[j];
      }
    }
  }

  /** Routing a whole batch to one lane is the same as appending the batch's
      placements to that lane in one go. */
  lemma {:induction false} PlaceEachOneLane(lanes: seq<seq<Item>>, hooks: Hooks, tasks: seq<TaskId>, idx: nat)
    requires idx < |lanes|
    ensures AllBelow(seq(|tasks|, _ => idx), |lanes|)
    ensures PlaceEach(lanes, hooks, tasks, seq(|tasks|, _ => idx)) == Append(lanes, idx, PlaceAll(hooks, idx, tasks))
  {
    var idxs: seq<nat> := seq(|tasks|, _ => idx);
    if tasks != [] {
      var n := |tasks| - 1;
      assert idxs[..n] == seq(n, _ => idx);
      PlaceEachOneLane(lanes, hooks, tasks[..n], idx);
      AppendTwice(lanes, idx, PlaceAll(hooks, idx, tasks[..n]), Placement(hooks, idx, tasks[n]));
    } else {
      assert lanes[idx] + [] == lanes[idx];
    }
  }

  lemma AppendTwice(lanes: seq<seq<Item>>, idx: nat, a: seq<Item>, b: seq<Item>)
    requires idx < |lanes|
    ensures Append(Append(lanes, idx, a), idx, b) == Append(lanes, idx, a + b)
  {
    assert lanes[idx] + a + b == lanes[idx] + (a + b);
  }

  /** Later placements only extend lanes: each lane still starts with what
      it held. So the promise an earlier placement returned on lane `j`
      covers no more than the tail that `all()` collects for lane `j` after
      any further placements. */
  lemma {:induction false} PlaceEachExtends(lanes: seq<seq<Item>>, hooks: Hooks, tasks: seq<TaskId>, idxs: seq<nat>, j: nat)
    requires |idxs| == |tasks| && AllBelow(idxs, |lanes|) && j < |lanes|
    ensures lanes[j] <= PlaceEach(lanes, hooks, tasks, idxs)[j]
    ensures |lanes[j]| <= Tails(PlaceEach(lanes, hooks, tasks, idxs))[j].count
  {
    if tasks != [] {
      var n := |tasks| - 1;
      var prev := PlaceEach(lanes, hooks, tasks[..n], idxs[..n]);
      var item := Placement(hooks, idxs[n], tasks[n]);
      PlaceEachExtends(lanes, hooks, tasks[..n], idxs[..n], j);
      assert PlaceEach(lanes, hooks, tasks, idxs) == Append(prev, idxs[n], item);
      assert prev[j] <= Append(prev, idxs[n], item)[j];
    }
  }
}
