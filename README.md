# promise-pool, modelled in Dafny

`promise-pool` spreads the execution of promise-returning functions over a
fixed number of *lanes*. A lane is a promise chain, and every function queued
on it is chained after the one before it. A `Pool` gets a size and a strategy that
chooses the lane for each function:

- `round-robin` (the default) walks the lanes in turn.
- `random` draws a lane with `Math.random`.
- `load-balancer` keeps the lanes in a min-heap keyed by the number of
  functions each lane still runs. It hands each new function to the lane at
  the root of the heap. That is the least loaded lane for as long as the
  heap stays ordered; a settling task can break that order (see Findings).

Hooks registered with `beforeEach`/`afterEach` are chained around every
queued function. They receive the index of their lane.

The model keeps each lane as the sequence of items chained on it so far: the
wrapped before-hook, the task, the wrapped after-hook. A returned promise is
a `Handle(lane, count)`: the promise that settles once the first `count`
items of that lane have settled. The modules follow the source files:

| module | file | source |
|---|---|---|
| `Common` | common.dfy | the error kinds the source throws, `Option`, `Result` |
| `Lanes` | lanes.dfy | lanes as item sequences; what one placement appends |
| `StrategyBase` | strategy.dfy | `lib/strategy.js` |
| `RoundRobinStrategy` | round_robin.dfy | `lib/strategies/round-robin.js` |
| `RandomStrategy` | random.dfy | `lib/strategies/random.js` |
| `PriorityQueue` | priority_queue.dfy | the binary min-heap of the `fastpriorityqueue` package |
| `LoadBalancerStrategy` | load_balancer.dfy | `lib/strategies/load-balancer.js` |
| `LoadBalancerTrace` | load_balancer_trace.dfy | worked runs of `lib/strategies/load-balancer.js` on fresh pools |
| `PromisePool` | pool.dfy | `lib/index.js` |

Mutable objects are classes:

- The strategies own their lanes: the `pool` array for round-robin and
  random, and per-lane `chains`, `loads` and a heap `queue` of lane indices
  for the load balancer.
- They hold a `Strategy` object as `base`, which carries the hooks registry,
  where the source uses inheritance.
- `Pool` holds the chosen strategy.

Randomness is a parameter: every `Math.random()` result is a real `draw` in
[0, 1) supplied by the caller.

The heap follows the `fastpriorityqueue` algorithm. The package's first test
(`node_modules/fastpriorityqueue/unit/basictests.js:12-26`) is proved on the
model by `PriorityQueue.HeapExampleAdds` and `PriorityQueue.HeapExamplePolls`:

- `add` appends, then moves the new entry up while it is strictly lighter
  than its parent.
- `poll` moves the last entry to the root, then moves it down towards the
  lighter child while that child is strictly lighter.

The package's own source file (`FastPriorityQueue.js`) is not part of this
model. The algorithm above is what the model states.

The random strategy's `enqueueOnSameExecutor` is documented at
`lib/strategies/random.js:79-83` as running an array "on the same promise
executor", and its name says the same. The code at
`lib/strategies/random.js:84-88` draws a fresh lane for every element. The
model follows the code (`RandomStrategy.Random.EnqueueOnSameExecutor`), and
the single-lane behaviour is modelled beside it as
`RandomStrategy.Random.EnqueueOnOneLane` (see Findings).

## Model

| member | source | states |
|---|---|---|
| Lanes.Placement | lib/strategy.js:48-50 | what one placement on lane `idx` appends: exactly the one task; the before-hook first iff one is registered; the after-hook last iff one is registered; every hook item reports lane `idx` |
| Lanes.PlaceAllTasks | lib/strategies/round-robin.js:77-82 | placing an array on one lane queues exactly that array's tasks, in order, and every hook item reports that lane |
| Lanes.SameLaneKeepsOrder | lib/strategies/round-robin.js:77-82 | after a batch is placed on one lane, that lane's tasks are its old tasks followed by the batch in submission order |
| Lanes.PlaceEachLane | lib/strategy.js:66 | when tasks are routed one by one, lane `j` receives exactly the tasks routed to `j`, in submission order, after what it already held |
| Lanes.PlaceEachTagged | lib/strategies/round-robin.js:53-70 | any sequence of placements keeps every hook item on the lane whose index it reports |
| Lanes.AppendTagged | lib/strategies/round-robin.js:53-70 | appending items tagged with lane `idx` to lane `idx` keeps every lane correctly tagged |
| Lanes.PlaceEachOneLane | lib/strategies/round-robin.js:77-82 | routing every task of a batch to the same lane is the same as appending the whole batch to that lane at once |
| Lanes.PlaceEachExtends | lib/strategies/round-robin.js:100-102 | later placements only extend a lane, so a promise a placement returned on lane `j` never covers more than the promise `all()` collects for lane `j` afterwards |
| Lanes.TasksConcat | lib/strategies/round-robin.js:41-43 | chaining more items onto a lane appends their tasks after the lane's existing tasks |
| StrategyBase.ValidateSize | lib/strategy.js:15-17 | the constructor accepts iff `size` is present and positive; otherwise it throws 'must be positive' |
| StrategyBase.Register | lib/strategy.js:26-29 | after registration, the slot holds `f` iff `f` is a callable; every other slot is unchanged |
| StrategyBase.Invoke | lib/strategy.js:48-50 | a task item calls its task; a hook item calls the hook registered when it runs, with its lane index, and throws iff none is registered |
| StrategyBase.RegisterOverwrites | lib/strategy.js:26-29 | registering twice leaves only the second callback |
| StrategyBase.HookIsLateBound | lib/strategy.js:48-50 | a queued hook item calls the hook registered at run time, not at queue time |
| StrategyBase.EnqueueManyGuardAsWritten | lib/strategy.js:63-65 | the guard as written throws a ReferenceError for `f` on every argument |
| StrategyBase.EnqueueManyGuard | lib/strategy.js:60-68 | the intended guard accepts iff the argument is an array, passes it through unchanged, and otherwise throws 'should be an array' |
| StrategyBase.EnqueueManyRejectsEveryArray | lib/strategy.js:63 | every array is rejected as written and accepted by the intended guard |
| StrategyBase.Strategy.BeforeEach | lib/strategy.js:26-29 | fills the before slot and returns the strategy itself |
| StrategyBase.Strategy.AfterEach | lib/strategy.js:36-39 | fills the after slot and returns the strategy itself |
| RoundRobinStrategy.Rotation | lib/strategies/round-robin.js:30-32 | `k` successive cursor picks are `k` lanes, all in range |
| RoundRobinStrategy.RoundRobin.Create | lib/strategies/round-robin.js:14-22 | fails iff the size check fails, with the size error; otherwise `size` idle lanes, cursor 0, no hooks |
| RoundRobinStrategy.RoundRobin.ObtainIndex | lib/strategies/round-robin.js:30-32 | returns the old cursor modulo the lane count, an index in range, and advances the cursor by one |
| RoundRobinStrategy.RoundRobin.Chain | lib/strategies/round-robin.js:41-43 | `__enqueue`: lane `idx` gains exactly the one item at its end, every other lane is unchanged, and the result is lane `idx`'s new tail |
| RoundRobinStrategy.RoundRobin.EnqueueCallableAt | lib/strategies/round-robin.js:53-70 | an index past the end throws out-of-bounds; a negative one fails on the undefined lane; neither changes any lane; otherwise lane `idx` gets the task between its registered hooks and the result is the new tail |
| RoundRobinStrategy.RoundRobin.EnqueueOnSameExecutor | lib/strategies/round-robin.js:77-82 | takes one cursor step; the whole array goes on that lane in order; returns `null` for an empty array, else the lane's new tail |
| RoundRobinStrategy.RoundRobin.Enqueue | lib/strategies/round-robin.js:92-94 | places the task on lane `cursor mod n` and advances the cursor by one |
| RoundRobinStrategy.RoundRobin.EnqueueMany | lib/strategy.js:60-68 | as intended: a non-array is rejected with nothing changed; an array's tasks go one by one to the next lanes of the rotation; the cursor advances by the array length; the result is the last tail, or `null` for an empty array |
| RoundRobinStrategy.RoundRobin.All | lib/strategies/round-robin.js:100-102 | one promise per lane, each the lane's current tail |
| RoundRobinStrategy.RoundRobin.Promise | lib/strategies/round-robin.js:108-110 | returns the current tail of the next lane in the rotation and advances the cursor by one |
| RoundRobinStrategy.RotationOfFive | tests/round-robin.js:35-45 | ten schedules on a 5-lane pool visit lanes 0,1,2,3,4,0,1,2,3,4 |
| RoundRobinStrategy.SameLaneIffMultiple | lib/strategies/round-robin.js:30-32 | picks `i` and `j` land on the same lane iff `j - i` is a multiple of the lane count |
| RoundRobinStrategy.RotationRoundIsDistinct | lib/strategies/round-robin.js:30-32 | any `n` consecutive picks on `n` lanes visit every lane exactly once |
| RandomStrategy.RandomBetween | lib/strategies/random.js:9 | `floor(r * (max - min + 1)) + min` lies in `[min, max]` for a draw `r` in [0, 1) |
| RandomStrategy.Draws | lib/strategies/random.js:37-39 | one in-range lane per draw, each the floor-scaled draw |
| RandomStrategy.EveryLaneReachable | lib/strategies/random.js:37-39 | for every lane some draw in [0, 1) selects it |
| RandomStrategy.DrawSlice | lib/strategies/random.js:9 | a draw selects lane `i` iff it falls in `[i/n, (i+1)/n)` |
| RandomStrategy.Random.Create | lib/strategies/random.js:22-29 | fails iff the size check fails, with the size error; otherwise `size` idle lanes and no hooks |
| RandomStrategy.Random.ObtainIndex | lib/strategies/random.js:37-39 | the drawn lane is in range and is the floor-scaled draw |
| RandomStrategy.Random.Chain | lib/strategies/random.js:48-50 | `__enqueue`: lane `idx` gains exactly the one item at its end, every other lane is unchanged, and the result is lane `idx`'s new tail |
| RandomStrategy.Random.PlaceInTurn | lib/strategies/random.js:86 | the `forEach` that draws a lane per task: task `k` goes, with its hooks, to the lane of draw `k`, in order, and the result is the tail after the last task, `null` for none |
| RandomStrategy.Random.EnqueueCallableAt | lib/strategies/random.js:60-77 | same bounds errors and placement as the round-robin version |
| RandomStrategy.Random.Enqueue | lib/strategies/random.js:98-100 | places the task, with its hooks, on the drawn lane and returns that lane's new tail |
| RandomStrategy.Random.EnqueueOnSameExecutor | lib/strategies/random.js:84-88 | as written: element `k` goes to the lane drawn by draw `k`; the result is the tail of the last drawn lane |
| RandomStrategy.Random.EnqueueOnOneLane | lib/strategies/random.js:84-88 | as intended: one draw, and the whole array goes on that lane in order |
| RandomStrategy.Random.EnqueueMany | lib/strategy.js:60-68 | as intended: a non-array is rejected with nothing changed; an array's tasks each go to their own drawn lane, and the result is the last tail |
| RandomStrategy.Random.Promise | lib/strategies/random.js:106-108 | returns the current tail of the drawn lane |
| RandomStrategy.SameExecutorSplitsBatch | lib/strategies/random.js:86 | on 2 lanes, draws 0.0 and 0.5 send a two-element "same executor" batch to lanes 0 and 1 |
| PriorityQueue.Add | lib/strategies/load-balancer.js:30 | adds exactly one entry; keeps heap order; an entry no lighter than any present entry stays at the end |
| PriorityQueue.Poll | lib/strategies/load-balancer.js:71 | an empty heap yields nothing; otherwise yields the root, removes exactly that one entry and keeps heap order |
| PriorityQueue.PercolateUp | lib/strategies/load-balancer.js:82 | moving an entry up is a permutation and restores heap order when that entry was the only misplaced one |
| PriorityQueue.PercolateDown | lib/strategies/load-balancer.js:77 | moving an entry down is a permutation; restores heap order when that entry was the only misplaced one; leaves the heap as it is when the entry is already the lightest |
| PriorityQueue.LighterChild | lib/strategies/load-balancer.js:11 | picks a child of `i` no heavier than either child |
| PriorityQueue.SwimKeeps | lib/strategies/load-balancer.js:82 | moving up keeps the same entries |
| PriorityQueue.SwimHeap | lib/strategies/load-balancer.js:82 | moving up the only misplaced entry yields a heap |
| PriorityQueue.SinkKeeps | lib/strategies/load-balancer.js:77 | moving down keeps the same entries |
| PriorityQueue.SinkHeap | lib/strategies/load-balancer.js:77 | moving down the only misplaced entry yields a heap |
| PriorityQueue.RestKeeps | lib/strategies/load-balancer.js:71 | the heap left by a poll has the old entries minus the root and is heap-ordered |
| PriorityQueue.RootIsMin | lib/strategies/load-balancer.js:11 | the root of a heap has the least load of all entries |
| PriorityQueue.KeyChangeOutside | lib/strategies/load-balancer.js:76 | changing the load of a lane that is not in the heap keeps heap order |
| PriorityQueue.RootKeyDecrease | lib/strategies/load-balancer.js:76-77 | lowering the load of the root keeps heap order |
| PriorityQueue.KeyDecreaseHoleUp | lib/strategies/load-balancer.js:76 | lowering the load of an entry anywhere leaves at most that entry out of place, below its parent |
| PriorityQueue.LastToRoot | lib/strategies/load-balancer.js:71 | moving the last entry to the root drops exactly the old root and leaves at most the root out of place |
| PriorityQueue.HeapExampleAdds | node_modules/fastpriorityqueue/unit/basictests.js:12-20 | adding keys 1, 0, 5, 4, 3 moves only the key-0 entry, to the root |
| PriorityQueue.HeapExamplePolls | node_modules/fastpriorityqueue/unit/basictests.js:21-25 | five polls of that heap yield keys 0, 1, 3, 4, 5 and leave it empty |
| PriorityQueue.HeapExamplePoll | lib/strategies/load-balancer.js:71 | a poll whose moved entry is swapped once with its lighter child and then stays leaves exactly that swapped sequence |
| LoadBalancerStrategy.FreshBalanced | lib/strategies/load-balancer.js:29-35 | the constructor's heap is usable iff there is at least one lane; it is heap-ordered, free of duplicates and holds every lane |
| LoadBalancerStrategy.EnqueueOne | lib/strategies/load-balancer.js:70-85 | one enqueue leaves a non-empty heap of the same size whose entries are all lanes of the pool |
| LoadBalancerStrategy.EnqueueTimes | lib/strategies/load-balancer.js:95-97 | any number of enqueues keep the heap usable and keep balance |
| LoadBalancerStrategy.Picks | lib/strategies/load-balancer.js:95-97 | the lanes chosen by `k` enqueues: `k` lanes, all in range |
| LoadBalancerStrategy.EnqueueOneBalanced | lib/strategies/load-balancer.js:95-97 | an enqueue on a balanced heap picks a lane of least load among the heap's entries and keeps balance |
| LoadBalancerStrategy.EnqueueOneComplete | lib/strategies/load-balancer.js:95-97 | an enqueue keeps every lane in the heap |
| LoadBalancerStrategy.PickIsLeastLoaded | lib/strategies/load-balancer.js:107-113 | in a balanced heap that holds every lane, the root is a lane of least load in the whole pool |
| LoadBalancerStrategy.ReAddKeepsBalance | lib/strategies/load-balancer.js:81-82 | re-adding the polled lane with its load one higher gives a balanced heap |
| LoadBalancerStrategy.PollKeepsBalance | lib/strategies/load-balancer.js:71 | polling a balanced heap keeps balance and removes every copy of the polled lane |
| LoadBalancerTrace.TenLanesTwentyTasks | tests/load-balancer.js:37-49 | on a fresh 10-lane pool the first ten enqueues go to lanes 0, 9, 1, 3, 7, 8, 4, 2, 5, 6, and twenty enqueues leave every lane with two tasks |
| LoadBalancerTrace.SevenLanesHeap | lib/strategies/load-balancer.js:95-97 | seven enqueues on a fresh 7-lane pool leave the heap `[2, 1, 4, 0, 6, 3, 5]` with every load 1 |
| LoadBalancerStrategy.LoadBalancer.Create | lib/strategies/load-balancer.js:25-36 | fails iff the size check fails, with the size error; otherwise `size` idle lanes, all at load 0, in the heap |
| LoadBalancerStrategy.LoadBalancer.EnqueueCallableOn | lib/strategies/load-balancer.js:45-63 | the lane `d` gets the task between its registered hooks; the result is its new tail |
| LoadBalancerStrategy.LoadBalancer.EnqueueOnSameExecutor | lib/strategies/load-balancer.js:70-85 | on an empty heap: `null` for an empty array, else a TypeError, nothing changed. Otherwise: the root lane gets the whole array in order; its load rises by the array length; the heap loses that lane once and gains it once per task; a one-task array is one balanced enqueue |
| LoadBalancerStrategy.LoadBalancer.PollRoot | lib/strategies/load-balancer.js:71 | yields the root and removes exactly it, keeping balance; an empty heap yields nothing |
| LoadBalancerStrategy.LoadBalancer.RequeueEach | lib/strategies/load-balancer.js:74-83 | each task goes on the lane with its hooks; the lane's load rises by one per task; the lane is re-added once per task |
| LoadBalancerStrategy.LoadBalancer.Requeue | lib/strategies/load-balancer.js:75-82 | one step of the `forEach`: lane `d` gets the task between its registered hooks and the result is its new tail; `d`'s load rises by one and `d` is added back to the heap once, sifted up |
| LoadBalancerStrategy.LoadBalancer.Enqueue | lib/strategies/load-balancer.js:95-97 | an empty heap throws and changes nothing; otherwise the task goes on the root lane, the state advances by one enqueue, and balance is kept |
| LoadBalancerStrategy.LoadBalancer.EnqueueMany | lib/strategy.js:60-68 | as intended: a non-array is rejected with nothing changed; otherwise task `k` goes to the lane of the `k`-th enqueue, the state advances by one enqueue per task, and balance is kept |
| LoadBalancerStrategy.LoadBalancer.EnqueueEach | lib/strategy.js:66 | the per-task loop of `enqueueMany`: the state is the given number of enqueues later, and each task is on the lane picked for it |
| LoadBalancerStrategy.LoadBalancer.All | lib/strategies/load-balancer.js:103-105 | one promise per entry of the live heap, in heap order: entry `k` gives the current tail of the lane at heap position `k` (stale slots of the backing array are left out) |
| LoadBalancerStrategy.LoadBalancer.AllCoversEveryLane | lib/strategies/load-balancer.js:103-105 | while every lane is in the heap, `all()` holds the current tail of every lane |
| LoadBalancerStrategy.LoadBalancer.AllSkipsPolledLane | lib/strategies/load-balancer.js:103-113 | after `promise()` polled a balanced heap, the live heap has no entry for the polled lane, so the model's `All` holds no promise of it |
| LoadBalancerStrategy.LoadBalancer.Promise | lib/strategies/load-balancer.js:111-113 | as written: an empty heap throws; otherwise returns the root lane's tail and removes that lane from the live heap for good, so no later enqueue picks it |
| LoadBalancerStrategy.LoadBalancer.PeekPromise | lib/strategies/load-balancer.js:111-113 | as intended: returns the least-loaded lane's tail and leaves the heap as it is |
| LoadBalancerStrategy.PromiseEmptiesOneLanePool | lib/strategies/load-balancer.js:111-113 | on a one-lane pool, `promise()` leaves an empty heap, so every later enqueue fails |
| LoadBalancerStrategy.LoadBalancer.SettleAsWritten | lib/strategies/load-balancer.js:75-79 | as written: a settled task lowers its lane's load, and only the root is re-sifted; balance is kept only when the lane is the root or not in the heap |
| LoadBalancerStrategy.RootResiftMissesSettledLane | lib/strategies/load-balancer.js:76-77 | a 7-lane heap where a non-root lane's settle leaves the heap out of order, with that lane lighter than the root |
| LoadBalancerStrategy.LoadBalancer.Settle | lib/strategies/load-balancer.js:75-79 | as intended: the load drops by one, the heap keeps its entries, and balance is kept whichever lane settles |
| PromisePool.StrategyFile | lib/index.js:19-20 | a strategy name resolves only to the file of that name, given with or without the `.js` extension |
| PromisePool.StrategyFileRoundTrip | lib/index.js:19-20 | each class's file name, with or without `.js`, resolves back to that class; exactly those six names resolve |
| PromisePool.Resolve | lib/index.js:19-20 | resolution fails only for a name with no strategy file (with or without `.js`), with module-not-found for that name |
| PromisePool.Configure | lib/index.js:13-20 | the argument fails only with the TypeError of reading `strategy` off a missing argument, or with module-not-found |
| PromisePool.Outcome | lib/index.js:12-22 | a constructed pool has a configuration whose size is positive |
| PromisePool.OnlyMissingArgumentThrowsTypeError | lib/index.js:19 | the constructor throws the TypeError iff the argument is `undefined` or `null` |
| PromisePool.NumberIsSize | lib/index.js:15-17 | a number `n` builds a round-robin pool of size `n` iff `n > 0` |
| PromisePool.DefaultIsRoundRobin | lib/index.js:20 | an absent or empty strategy name selects round-robin |
| PromisePool.ClassIsUsedAsIs | lib/index.js:19 | a strategy class passed directly is used as it is |
| PromisePool.NameSelectsFile | lib/index.js:19-21 | a named strategy fails iff there is no such file (with or without `.js`) or the size is not positive; an unknown name fails with module-not-found whatever the size |
| PromisePool.InitializationCases | tests/initialization.js:36-42 | the seven constructor cases of the test suite give the errors and pools the test expects |
| PromisePool.Pool.Create | lib/index.js:12-22 | fails iff the configuration fails, with the same error; otherwise a new pool of the configured class with `size` idle lanes and no hooks; the new pool's picker is that of a new strategy: cursor 0 for round-robin, the heap of every lane in index order at load 0 for the load balancer |
| PromisePool.FirstPickOfNewPool | lib/index.js:12-22 | a pool just built picks a lane for its first task: lane 0 for round-robin and the load balancer, the drawn lane for the random strategy, so that first placement cannot fail |
| PromisePool.Pool.BeforeEach | lib/index.js:29-32 | registers the before hook on the strategy, leaves the lanes alone, returns the pool |
| PromisePool.Pool.AfterEach | lib/index.js:39-42 | registers the after hook on the strategy, leaves the lanes alone, returns the pool |
| PromisePool.Pool.Enqueue | lib/index.js:52-57 | as intended: a single function goes to the lane the strategy picks next and the strategy's picker (cursor, or heap and loads) moves on by one placement; an array goes through `enqueueMany`, its tasks to `k` successive picks, and the picker moves on by `k`; with the intended array check, the only failure is the load balancer's empty heap |
| PromisePool.Pool.EnqueueMany | lib/index.js:67-69 | as intended: a non-array is rejected with the lanes and the picker unchanged; each task of an array goes to its strategy's next pick, the picker moves on by one placement per task, and the result is the last tail |
| PromisePool.Pool.EnqueueOnSameExecutor | lib/index.js:76-78 | the one function goes to the lane the strategy picks next, with its hooks; the picker moves on by one placement; the result is that lane's tail |
| PromisePool.Pool.Schedule | lib/index.js:86-93 | as intended: places like `enqueue`, moves the picker on by the same number of placements, and returns the pool itself |
| PromisePool.SingleIsBatchOfOne | lib/index.js:76-78 | for every strategy, the lane picked for a one-element array is the lane picked for a single function |

## Left out

- Running the chains: promise resolution, asynchronous ordering and task results are the JavaScript runtime's business. A lane is the list of what is chained on it.
- `Math.random` is a caller-supplied real in [0, 1), not a floating-point number.
- The load balancer's wrapper `f_` (`lib/strategies/load-balancer.js:75-79`) runs when the task settles. Its effect is the separate operation `Settle` (as written: `SettleAsWritten`), which the caller invokes. Rejected tasks, which never reach it, are not modelled.
- The custom `opts.comparator` of the load balancer (`lib/strategies/load-balancer.js:27`): only the default comparator, least load first, is modelled.
- The heap is a sequence value of lane indices, not the package's backing array. `poll` shrinks the heap's size but leaves the old last slot in that array, and `all()` (`lib/strategies/load-balancer.js:104`) maps the whole array, stale slots included.
- LoadBalancerStrategy.LoadBalancer.All: maps only the live heap. On a fresh 3-lane pool, two `promise()` calls leave the live heap `[1]` but the backing array `[1, 1, 2]`, so the program's `all()` still waits on lane 2, which the second call polled; the model's `All` does not.
- LoadBalancerStrategy.LoadBalancer.AllSkipsPolledLane: holds of the live heap only; through a stale slot such as the one above, the program's `all()` can still wait on the polled lane.
- StrategyBase.Register: a hook is modelled as a callable or a falsy value (`Option<HookFn>`). A truthy non-function, as in `beforeEach(5)`, is stored by `lib/strategy.js:26-27` and its queued item then throws a TypeError when it runs (`lib/strategy.js:49`); that case is not modelled.
- `FastPriorityQueue.js` is not part of this model. The heap follows the package's documented algorithm and its test.
- `Pool.patch` (`lib/index.js:99-101`) only assigns a property of another object. The test that expects it to return `Pool` is not modelled.
- Pool sizes are integers. Fractional sizes and `size` values of other JavaScript types are not modelled.
- Strategy values other than a string, one of the three classes, or absent are not modelled. Neither are names that reach other modules through path segments, nor user-written strategy classes.
- `lib/common/index.js` is not part of this model.
- PromisePool.Pool.EnqueueOnSameExecutor: takes one function, as the JavaScript signature does. An array argument would become a single non-callable element of the wrapping array and is not modelled.
- LoadBalancerStrategy.LoadBalancer.EnqueueOnSameExecutor: for arrays of two or more tasks it states the heap's contents as a multiset (the lane appears once per task), not heap balance. The source re-adds one descriptor several times, so the heap holds duplicates, and balance is proved only for zero or one task.
- LoadBalancerTrace.TenLanesTwentyTasks: states the first ten picks of `tests/load-balancer.js:38` and that every lane ends with two tasks. The test also expects the second ten hooks in the same lane order; when a lane's second task starts depends on when its first one settles, which is promise timing the model does not run.
- Failure propagation: every item is chained with `.then` and no rejection handler (`lib/strategies/round-robin.js:41`, `lib/strategies/random.js:49`, `lib/strategies/load-balancer.js:50-62`). Once a task rejects or a hook throws, every later item on that lane is skipped. The model lists what is chained on each lane and does not model that skipping on any lane.
- RoundRobinStrategy.RoundRobin.EnqueueMany: models the intended array check (`StrategyBase.EnqueueManyGuard`); as written every call throws a ReferenceError (see Findings).
- RandomStrategy.Random.EnqueueMany: models the intended array check; as written every call throws a ReferenceError (see Findings).
- LoadBalancerStrategy.LoadBalancer.EnqueueMany: models the intended array check; as written every call throws a ReferenceError (see Findings).
- PromisePool.Pool.Enqueue: an array goes to the strategy's `enqueueMany`, modelled with the intended array check; as written an array always throws a ReferenceError (see Findings).
- PromisePool.Pool.EnqueueMany: modelled with the intended array check; as written it always throws a ReferenceError (see Findings).
- PromisePool.Pool.Schedule: an array goes to `enqueueMany`, modelled with the intended array check; as written an array always throws a ReferenceError (see Findings).

## Findings

| source | as written | input that shows it | evidently intended | confidence | as-written member | corrected member |
|---|---|---|---|---|---|---|
| lib/strategy.js:63 | the array check tests `f`, a name not bound at that point, so `enqueueMany` throws a ReferenceError for every argument | `pool.enqueueMany([f])` or `pool.enqueue([f])` on any pool | test `array`: accept an array, reject anything else | not executed | StrategyBase.EnqueueManyRejectsEveryArray | StrategyBase.EnqueueManyGuard |
| lib/strategies/random.js:86 | `enqueueOnSameExecutor` draws a new lane for every element | 2 lanes, a two-element array, draws 0.0 then 0.5: the elements go to lanes 0 and 1 | one draw, and the whole array on that lane, as the method's name and comment say | not executed | RandomStrategy.SameExecutorSplitsBatch | RandomStrategy.Random.EnqueueOnOneLane |
| lib/strategies/load-balancer.js:76-77 | when a task settles, its lane's load drops, but only the root is re-sifted | 7 lanes, 7 enqueues: heap `[2,1,4,0,6,3,5]`, all loads 1 (`LoadBalancerTrace.SevenLanesHeap`); lane 0's task settles, and lane 0 (load 0) stays below root lane 2 (load 1) | restore heap order at the settled lane's position | not executed | LoadBalancerStrategy.RootResiftMissesSettledLane | LoadBalancerStrategy.LoadBalancer.Settle |
| lib/strategies/load-balancer.js:112 | `promise()` polls the least-loaded lane and never re-adds it, so that lane leaves the live heap | a 1-lane load-balancer pool: `promise()`, then `enqueue(f)` reads `.promise` of `undefined` | return the least-loaded lane's promise and keep the lane in the heap | not executed | LoadBalancerStrategy.PromiseEmptiesOneLanePool | LoadBalancerStrategy.LoadBalancer.PeekPromise |
