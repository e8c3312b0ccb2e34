/** The binary min-heap the load-balancing strategy keeps its lane
    descriptors in (the `fastpriorityqueue` package, with the strategy's
    default comparator `a.load < b.load`). The heap's backing array holds
    descriptor indices; `loads[d]` is the key of descriptor `d`. The same
    descriptor may sit in the array more than once, as it does in the
    strategy. */
module PriorityQueue {
  import opened Common

  function Parent(k: nat): nat
    requires k > 0
  {
    (k - 1) / 2
  }

  /** Every entry names a descriptor that has a key. */
  ghost predicate InRange(q: seq<nat>, n: nat)
  {
    forall k :: 0 <= k < |q| ==> q[k] < n
  }

  /** No entry is lighter than its parent. */
  ghost predicate HeapOrdered(q: seq<nat>, loads: seq<int>)
  {
    InRange(q, |loads|) && forall k :: 0 < k < |q| ==> loads[q[Parent(k)]] <= loads[q[k]]
  }

  /** Sifting up with the moving entry at `i`: every link holds except the
      one between `i` and its parent, and `i`'s parent is no heavier than
      `i`'s children. */
  ghost predicate HoleUp(c: seq<nat>, loads: seq<int>, i: nat)
  {
    && InRange(c, |loads|) && i < |c|
    && (forall k :: 0 < k < |c| && k != i ==> loads[c[Parent(k)]] <= loads[c[k]])
    && (i > 0 ==> forall k :: 0 < k < |c| && Parent(k) == i ==> loads[c[Parent(i)]] <= loads[c[k]])
  }

  /** Sifting down with the moving entry at `i`: every link holds except
      those between `i` and its children, and `i`'s parent is no heavier
      than `i`'s children. */
  ghost predicate HoleDown(c: seq<nat>, loads: seq<int>, i: nat)
  {
    && InRange(c, |loads|) && i < |c|
    && (forall k :: 0 < k < |c| && Parent(k) != i ==> loads[c[Parent(k)]] <= loads[c[k]])
    && (i > 0 ==> forall k :: 0 < k < |c| && Parent(k) == i ==> loads[c[Parent(i)]] <= loads[c[k]])
  }

  function Swap(c: seq<nat>, i: nat, j: nat): seq<nat>
    requires i < |c| && j < |c|
  {
    c[i := c[j]][j := c[i]]
  }

  /** Sifting up from `i`: the entry at `i` swaps with its parent while it
      is strictly lighter, so equal keys keep their order. */
  function Swim(c: seq<nat>, loads: seq<int>, i: nat): (r: seq<nat>)
    requires InRange(c, |loads|) && i < |c|
    ensures |r| == |c| && InRange(r, |loads|)
    decreases i
  {
    if i == 0 then c
    else if loads[c[i]] < loads[c[Parent(i)]] then
      SwapInRange(c, |loads|, i, Parent(i));
      Swim(Swap(c, i, Parent(i)), loads, Parent(i))
    else c
  }

  /** Sifting down from `i`: the entry at `i` swaps with its lighter child
      (the left one on a tie) while that child is strictly lighter. */
  function Sink(c: seq<nat>, loads: seq<int>, i: nat): (r: seq<nat>)
    requires InRange(c, |loads|) && i < |c|
    ensures |r| == |c| && InRange(r, |loads|)
    decreases |c| - i
  {
    if 2 * i + 1 >= |c| then c
    else
      var l := LighterChild(c, loads, i);
      if loads[c[l]] < loads[c[i]] then
        SwapInRange(c, |loads|, i, l);
        Sink(Swap(c, i, l), loads, l)
      else c
  }

  /** The child of `i` that `Sink` compares with: the right one only when it
      exists and is strictly lighter than the left one. */
  function LighterChild(c: seq<nat>, loads: seq<int>, i: nat): (l: nat)
    requires InRange(c, |loads|) && 2 * i + 1 < |c|
    ensures (l == 2 * i + 1 || l == 2 * i + 2) && l < |c|
    ensures 2 * i + 2 < |c| ==> loads[c[l]] <= loads[c[2 * i + 2]]
    ensures loads[c[l]] <= loads[c[2 * i + 1]]
  {
    if 2 * i + 2 < |c| && loads[c[2 * i + 2]] < loads[c[2 * i + 1]] then 2 * i + 2 else 2 * i + 1
  }

  /** `add`: the new entry goes at the end and is sifted up. */
  method Add(q: seq<nat>, loads: seq<int>, d: nat) returns (r: seq<nat>)
    requires InRange(q, |loads|) && d < |loads|
    ensures InRange(q + [d], |loads|) && r == Swim(q + [d], loads, |q|)
    ensures |r| == |q| + 1 && multiset(r) == multiset(q) + multiset{d}
    ensures HeapOrdered(q, loads) ==> HeapOrdered(r, loads)
    ensures (forall k :: 0 <= k < |q| ==> loads[q[k]] <= loads[d]) ==> r == q + [d]
  {
    r := PercolateUp(q + [d], loads, |q|);
    AddResult(q, loads, d, r);
  }

  /** `_percolateUp(i)`: the entry at `i` is sifted up. */
  method PercolateUp(q: seq<nat>, loads: seq<int>, i0: nat) returns (r: seq<nat>)
    requires InRange(q, |loads|) && i0 < |q|
    ensures r == Swim(q, loads, i0)
    ensures |r| == |q| && InRange(r, |loads|) && multiset(r) == multiset(q)
    ensures HoleUp(q, loads, i0) ==> HeapOrdered(r, loads)
  {
    r := q;
    var i: nat := i0;
    var v := q[i0];
    while i > 0
      invariant i < |r| == |q| && InRange(r, |loads|) && r[i] == v
      invariant Swim(r, loads, i) == Swim(q, loads, i0)
    {
      var p: nat := (i - 1) / 2;
      if !(loads[v] < loads[r[p]]) {
        break;
      }
      SwapInRange(r, |loads|, i, p);
      r := Swap(r, i, p);
      i := p;
    }
    SwimKeeps(q, loads, i0);
    if HoleUp(q, loads, i0) {
      SwimHeap(q, loads, i0);
    }
  }

  /** `_percolateDown(i)`: the entry at `i` is sifted down. */
  method PercolateDown(q: seq<nat>, loads: seq<int>, i0: nat) returns (r: seq<nat>)
    requires InRange(q, |loads|) && i0 < |q|
    ensures r == Sink(q, loads, i0)
    ensures |r| == |q| && InRange(r, |loads|) && multiset(r) == multiset(q)
    ensures HoleDown(q, loads, i0) ==> HeapOrdered(r, loads)
    ensures (forall k :: 0 <= k < |q| ==> loads[q[i0]] <= loads[q[k]]) ==> r == q
  {
    r := q;
    var i: nat := i0;
    var v := q[i0];
    while 2 * i + 1 < |r|
      invariant i < |r| == |q| && InRange(r, |loads|) && r[i] == v
      invariant Sink(r, loads, i) == Sink(q, loads, i0)
      decreases |r| - i
    {
      var l: nat := 2 * i + 1;
      if l + 1 < |r| && loads[r[l + 1]] < loads[r[l]] {
        l := l + 1;
      }
      if !(loads[r[l]] < loads[v]) {
        break;
      }
      SinkStep(r, loads, i, l);
      r := Swap(r, i, l);
      i := l;
    }
    PercolateResult(q, loads, i0, r);
  }

  /** The entries `poll` leaves: the last entry moved to the root and
      sifted down. */
  function Rest(q: seq<nat>, loads: seq<int>): (r: seq<nat>)
    requires InRange(q, |loads|) && q != []
    ensures |r| == |q| - 1 && InRange(r, |loads|)
  {
    if |q| == 1 then []
    else
      LastToRoot(q, loads);
      Sink([q[|q| - 1]] + q[1..|q| - 1], loads, 0)
  }

  /** `poll`: the root is taken out, the last entry replaces it and is
      percolated down; an empty queue yields `undefined`. */
  method Poll(q: seq<nat>, loads: seq<int>) returns (top: Option<nat>, r: seq<nat>)
    requires InRange(q, |loads|)
    ensures q == [] ==> top == None && r == []
    ensures q != [] ==> top == Some(q[0]) && r == Rest(q, loads)
    ensures q != [] ==> multiset(r) == multiset(q) - multiset{q[0]}
    ensures InRange(r, |loads|)
    ensures HeapOrdered(q, loads) ==> HeapOrdered(r, loads)
    ensures |q| > 1 && (forall k :: 0 <= k < |q| ==> loads[q[|q| - 1]] <= loads[q[k]]) ==>
              r == [q[|q| - 1]] + q[1..|q| - 1]
  {
    if q == [] {
      return None, [];
    }
    top := Some(q[0]);
    if |q| == 1 {
      r := [];
      return;
    }
    var n := |q| - 1;
    var a: seq<nat> := [q[n]] + q[1..n];
    r := PercolateDown(a, loads, 0);
    PollResult(q, loads, a, r);
  }

  // ---------------------------------------------------------------------
  // Lemmas

  lemma SwapMultiset(c: seq<nat>, i: nat, j: nat)
    requires i < |c| && j < |c|
    ensures multiset(Swap(c, i, j)) == multiset(c)
  {
    if i != j {
      var x, y := c[i], c[j];
      var m := c[i := y];
      assert multiset(m) == multiset(c) - multiset{x} + multiset{y};
      assert m[j] == y;
      assert multiset(m[j := x]) == multiset(m) - multiset{y} + multiset{x};
    }
  }

  lemma SwapAt(c: seq<nat>, i: nat, j: nat, k: nat)
    requires i < |c| && j < |c| && k < |c| && i != j
    ensures Swap(c, i, j)[k] == if k == i then c[j] else if k == j then c[i] else c[k]
  {
  }

  lemma SwapInRange(c: seq<nat>, n: nat, i: nat, j: nat)
    requires InRange(c, n) && i < |c| && j < |c|
    ensures InRange(Swap(c, i, j), n)
  {
  }

  /** What `Add` promises, from the result of sifting up the new entry. */
  lemma AddResult(q: seq<nat>, loads: seq<int>, d: nat, r: seq<nat>)
    requires InRange(q, |loads|) && d < |loads| && InRange(q + [d], |loads|)
    requires r == Swim(q + [d], loads, |q|) && multiset(r) == multiset(q + [d])
    requires HoleUp(q + [d], loads, |q|) ==> HeapOrdered(r, loads)
    ensures |r| == |q| + 1 && multiset(r) == multiset(q) + multiset{d}
    ensures HeapOrdered(q, loads) ==> HeapOrdered(r, loads)
    ensures (forall k :: 0 <= k < |q| ==> loads[q[k]] <= loads[d]) ==> r == q + [d]
  {
    var c := q + [d];
    if HeapOrdered(q, loads) {
      assert HoleUp(c, loads, |q|);
    }
    if forall k :: 0 <= k < |q| ==> loads[q[k]] <= loads[d] {
      if |q| > 0 {
        assert c[Parent(|q|)] == q[Parent(|q|)];
      }
    }
  }

  /** One swap of `Sink`, as `PercolateDown`'s loop makes it. */
  lemma SinkStep(c: seq<nat>, loads: seq<int>, i: nat, l: nat)
    requires InRange(c, |loads|) && 2 * i + 1 < |c|
    requires l == if 2 * i + 2 < |c| && loads[c[2 * i + 2]] < loads[c[2 * i + 1]] then 2 * i + 2 else 2 * i + 1
    requires loads[c[l]] < loads[c[i]]
    ensures InRange(Swap(c, i, l), |loads|)
    ensures Sink(c, loads, i) == Sink(Swap(c, i, l), loads, l)
  {
    SwapInRange(c, |loads|, i, l);
  }

  /** What `PercolateDown` promises, from the result of sifting down. */
  lemma PercolateResult(q: seq<nat>, loads: seq<int>, i0: nat, r: seq<nat>)
    requires InRange(q, |loads|) && i0 < |q| && r == Sink(q, loads, i0)
    ensures |r| == |q| && InRange(r, |loads|) && multiset(r) == multiset(q)
    ensures HoleDown(q, loads, i0) ==> HeapOrdered(r, loads)
    ensures (forall k :: 0 <= k < |q| ==> loads[q[i0]] <= loads[q[k]]) ==> r == q
  {
    SinkKeeps(q, loads, i0);
    SinkHeap(q, loads, i0);
  }

  lemma {:induction false} SwimKeeps(c: seq<nat>, loads: seq<int>, i: nat)
    requires InRange(c, |loads|) && i < |c|
    ensures multiset(Swim(c, loads, i)) == multiset(c)
    decreases i
  {
    if i > 0 && loads[c[i]] < loads[c[Parent(i)]] {
      SwapInRange(c, |loads|, i, Parent(i));
      SwapMultiset(c, i, Parent(i));
      SwimKeeps(Swap(c, i, Parent(i)), loads, Parent(i));
    }
  }

  /** Sifting up the one entry out of order restores the heap. */
  lemma {:induction false} SwimHeap(c: seq<nat>, loads: seq<int>, i: nat)
    requires HoleUp(c, loads, i)
    ensures HeapOrdered(Swim(c, loads, i), loads)
    decreases i
  {
    if i > 0 && loads[c[i]] < loads[c[Parent(i)]] {
      SiftUpStep(c, loads, i);
      SwimHeap(Swap(c, i, Parent(i)), loads, Parent(i));
    } else {
      SiftUpDone(c, loads, i);
    }
  }

  lemma {:induction false} SinkKeeps(c: seq<nat>, loads: seq<int>, i: nat)
    requires InRange(c, |loads|) && i < |c|
    ensures multiset(Sink(c, loads, i)) == multiset(c)
    decreases |c| - i
  {
    if 2 * i + 1 < |c| {
      var l := LighterChild(c, loads, i);
      if loads[c[l]] < loads[c[i]] {
        SwapInRange(c, |loads|, i, l);
        SwapMultiset(c, i, l);
        SinkKeeps(Swap(c, i, l), loads, l);
      }
    }
  }

  /** Sifting down the one entry out of order restores the heap. */
  lemma {:induction false} SinkHeap(c: seq<nat>, loads: seq<int>, i: nat)
    requires InRange(c, |loads|) && i < |c|
    ensures HoleDown(c, loads, i) ==> HeapOrdered(Sink(c, loads, i), loads)
    decreases |c| - i
  {
    if HoleDown(c, loads, i) {
      if 2 * i + 1 < |c| {
        var l := LighterChild(c, loads, i);
        if loads[c[l]] < loads[c[i]] {
          SiftDownStep(c, loads, i, l);
          SinkHeap(Swap(c, i, l), loads, l);
        } else {
          SiftDownDone(c, loads, i);
        }
      } else {
        SiftDownDone(c, loads, i);
      }
    }
  }

  lemma SiftUpStep(c: seq<nat>, loads: seq<int>, i: nat)
    requires 0 < i && HoleUp(c, loads, i)
    requires loads[c[i]] < loads[c[Parent(i)]]
    ensures HoleUp(Swap(c, i, Parent(i)), loads, Parent(i))
  {
    var p := Parent(i);
    var s := Swap(c, i, p);
    SwapInRange(c, |loads|, i, p);
    forall k | 0 < k < |s| && k != p
      ensures loads[s[Parent(k)]] <= loads[s[k]]
    {
      var pk := Parent(k);
      SwapAt(c, i, p, k);
      SwapAt(c, i, p, pk);
      if k == i {
        assert s[pk] == c[i] && s[k] == c[p];
      } else if pk == i {
        assert s[pk] == c[p] && s[k] == c[k];
      } else if pk == p {
        assert s[pk] == c[i] && s[k] == c[k];
        assert loads[c[p]] <= loads[c[k]];
      } else {
        assert s[pk] == c[pk] && s[k] == c[k];
      }
    }
    if p > 0 {
      var g := Parent(p);
      SwapAt(c, i, p, g);
      assert s[g] == c[g];
      assert loads[c[g]] <= loads[c[p]];
      forall k | 0 < k < |s| && Parent(k) == p
        ensures loads[s[g]] <= loads[s[k]]
      {
        SwapAt(c, i, p, k);
        if k != i {
          assert s[k] == c[k];
          assert loads[c[p]] <= loads[c[k]];
        }
      }
    }
  }

  lemma SiftUpDone(c: seq<nat>, loads: seq<int>, i: nat)
    requires HoleUp(c, loads, i)
    requires i == 0 || loads[c[Parent(i)]] <= loads[c[i]]
    ensures HeapOrdered(c, loads)
  {
  }

  lemma SiftDownStep(c: seq<nat>, loads: seq<int>, i: nat, l: nat)
    requires HoleDown(c, loads, i) && (l == 2 * i + 1 || l == 2 * i + 2) && l < |c|
    requires l == 2 * i + 1 && 2 * i + 2 < |c| ==> loads[c[l]] <= loads[c[2 * i + 2]]
    requires l == 2 * i + 2 ==> loads[c[l]] <= loads[c[2 * i + 1]]
    requires loads[c[l]] < loads[c[i]]
    ensures HoleDown(Swap(c, i, l), loads, l)
  {
    var s := Swap(c, i, l);
    SwapInRange(c, |loads|, i, l);
    forall k | 0 < k < |s| && Parent(k) != l
      ensures loads[s[Parent(k)]] <= loads[s[k]]
    {
      SiftDownLink(c, loads, i, l, k);
    }
    SwapAt(c, i, l, i);
    forall k | 0 < k < |s| && Parent(k) == l
      ensures loads[s[i]] <= loads[s[k]]
    {
      SwapAt(c, i, l, k);
    }
  }

  /** One link of `SiftDownStep` that is not below the moved entry. */
  lemma SiftDownLink(c: seq<nat>, loads: seq<int>, i: nat, l: nat, k: nat)
    requires HoleDown(c, loads, i) && (l == 2 * i + 1 || l == 2 * i + 2) && l < |c|
    requires l == 2 * i + 1 && 2 * i + 2 < |c| ==> loads[c[l]] <= loads[c[2 * i + 2]]
    requires l == 2 * i + 2 ==> loads[c[l]] <= loads[c[2 * i + 1]]
    requires loads[c[l]] < loads[c[i]]
    requires 0 < k < |c| && Parent(k) != l
    ensures loads[Swap(c, i, l)[Parent(k)]] <= loads[Swap(c, i, l)[k]]
  {
    var pk := Parent(k);
    SwapAt(c, i, l, k);
    SwapAt(c, i, l, pk);
    if k == l {
    } else if pk == i {
      assert k == 2 * i + 1 || k == 2 * i + 2;
    } else if k == i {
    }
  }

  lemma SiftDownDone(c: seq<nat>, loads: seq<int>, i: nat)
    requires HoleDown(c, loads, i)
    requires 2 * i + 1 < |c| ==> loads[c[i]] <= loads[c[2 * i + 1]]
    requires 2 * i + 2 < |c| ==> loads[c[i]] <= loads[c[2 * i + 2]]
    ensures HeapOrdered(c, loads)
  {
    forall k | 0 < k < |c| ensures loads[c[Parent(k)]] <= loads[c[k]] {
      if Parent(k) == i {
        assert k == 2 * i + 1 || k == 2 * i + 2;
      }
    }
  }

  /** What `Poll` promises, from what `PercolateDown` promises about the
      array with the last entry moved to the root. */
  lemma PollResult(q: seq<nat>, loads: seq<int>, a: seq<nat>, r: seq<nat>)
    requires InRange(q, |loads|) && |q| > 1 && a == [q[|q| - 1]] + q[1..|q| - 1]
    requires |r| == |a| && InRange(r, |loads|) && multiset(r) == multiset(a)
    requires HoleDown(a, loads, 0) ==> HeapOrdered(r, loads)
    requires (forall k :: 0 <= k < |a| ==> loads[a[0]] <= loads[a[k]]) ==> r == a
    ensures |r| == |q| - 1 && multiset(r) == multiset(q) - multiset{q[0]}
    ensures HeapOrdered(q, loads) ==> HeapOrdered(r, loads)
    ensures (forall k :: 0 <= k < |q| ==> loads[q[|q| - 1]] <= loads[q[k]]) ==> r == a
  {
    LastToRoot(q, loads);
  }

  /** What is left after `poll` holds every entry but the root, and is a
      heap if the queue was. */
  lemma RestKeeps(q: seq<nat>, loads: seq<int>)
    requires InRange(q, |loads|) && q != []
    ensures multiset(Rest(q, loads)) == multiset(q) - multiset{q[0]}
    ensures HeapOrdered(q, loads) ==> HeapOrdered(Rest(q, loads), loads)
  {
    if |q| == 1 {
      assert q == [q[0]];
    } else {
      LastToRoot(q, loads);
      var a := [q[|q| - 1]] + q[1..|q| - 1];
      PercolateResult(a, loads, 0, Sink(a, loads, 0));
    }
  }

  /** Moving the last entry to the root keeps the entries but the old root,
      leaves a heap below the root if there was a heap, and leaves the root
      lightest if the last entry was. */
  lemma LastToRoot(q: seq<nat>, loads: seq<int>)
    requires InRange(q, |loads|) && |q| > 1
    ensures var a := [q[|q| - 1]] + q[1..|q| - 1];
            && InRange(a, |loads|)
            && multiset(a) == multiset(q) - multiset{q[0]}
            && (HeapOrdered(q, loads) ==> HoleDown(a, loads, 0))
            && ((forall k :: 0 <= k < |q| ==> loads[q[|q| - 1]] <= loads[q[k]]) ==>
                  forall k :: 0 <= k < |a| ==> loads[a[0]] <= loads[a[k]])
  {
    var n := |q| - 1;
    var a := [q[n]] + q[1..n];
    LastToRootEntries(q, a);
    LastToRootMultiset(q);
    if forall k :: 0 <= k < |q| ==> loads[q[n]] <= loads[q[k]] {
      forall k | 0 <= k < |a| ensures loads[a[0]] <= loads[a[k]] {
        assert k == 0 || a[k] == q[k];
      }
    }
    if HeapOrdered(q, loads) {
      LastToRootHeap(q, loads, a);
    }
  }

  lemma LastToRootMultiset(q: seq<nat>)
    requires |q| > 1
    ensures multiset([q[|q| - 1]] + q[1..|q| - 1]) == multiset(q) - multiset{q[0]}
  {
    var n := |q| - 1;
    assert q == [q[0]] + q[1..n] + [q[n]];
    assert multiset(q) == multiset{q[0]} + multiset(q[1..n]) + multiset{q[n]};
  }

  lemma LastToRootEntries(q: seq<nat>, a: seq<nat>)
    requires |q| > 1 && a == [q[|q| - 1]] + q[1..|q| - 1]
    ensures |a| == |q| - 1 && a[0] == q[|q| - 1]
    ensures forall k :: 0 < k < |a| ==> a[k] == q[k]
  {
  }

  lemma LastToRootHeap(q: seq<nat>, loads: seq<int>, a: seq<nat>)
    requires HeapOrdered(q, loads) && |q| > 1 && |a| == |q| - 1 && a[0] == q[|q| - 1]
    requires forall k :: 0 < k < |a| ==> a[k] == q[k]
    ensures HoleDown(a, loads, 0)
  {
    forall k | 0 < k < |a| && Parent(k) != 0
      ensures loads[a[Parent(k)]] <= loads[a[k]]
    {
      assert a[Parent(k)] == q[Parent(k)];
    }
  }

  /** The root of a heap is no heavier than any entry below `k`'s chain of
      parents, so `poll` returns a lightest descriptor. */
  lemma {:induction false} RootBelow(q: seq<nat>, loads: seq<int>, k: nat)
    requires HeapOrdered(q, loads) && k < |q|
    ensures loads[q[0]] <= loads[q[k]]
    decreases k
  {
    if k > 0 {
      RootBelow(q, loads, Parent(k));
    }
  }

  /** The root of a heap has the least key of all its entries. */
  lemma RootIsMin(q: seq<nat>, loads: seq<int>)
    requires HeapOrdered(q, loads) && q != []
    ensures forall k :: 0 <= k < |q| ==> loads[q[0]] <= loads[q[k]]
  {
    forall k | 0 <= k < |q| ensures loads[q[0]] <= loads[q[k]] {
      RootBelow(q, loads, k);
    }
  }

  /** A heap is a heap below every position. */
  lemma HeapHoleDown(q: seq<nat>, loads: seq<int>, i: nat)
    requires HeapOrdered(q, loads) && i < |q|
    ensures HoleDown(q, loads, i)
  {
    if i > 0 {
      forall k | 0 < k < |q| && Parent(k) == i
        ensures loads[q[Parent(i)]] <= loads[q[k]]
      {
        assert loads[q[Parent(i)]] <= loads[q[i]];
      }
    }
  }

  /** Changing the key of a descriptor that is not in the queue leaves the
      queue's order as it was. */
  lemma KeyChangeOutside(q: seq<nat>, loads: seq<int>, d: nat, key: int)
    requires HeapOrdered(q, loads) && d < |loads| && d !in q
    ensures HeapOrdered(q, loads[d := key])
  {
    forall k | 0 < k < |q| ensures loads[d := key][q[Parent(k)]] <= loads[d := key][q[k]] {
      assert q[Parent(k)] != d && q[k] != d;
    }
  }

  /** Lowering the key of the root of a heap in which it occurs once keeps
      the heap. */
  lemma RootKeyDecrease(q: seq<nat>, loads: seq<int>, key: int)
    requires HeapOrdered(q, loads) && q != [] && multiset(q)[q[0]] == 1 && key <= loads[q[0]]
    ensures HeapOrdered(q, loads[q[0] := key])
  {
    var l := loads[q[0] := key];
    forall k | 0 < k < |q| ensures l[q[Parent(k)]] <= l[q[k]] {
      OnlyAt(q, 0, k);
    }
  }

  /** Lowering the key of an entry that occurs once leaves at most the link
      to its parent out of order, so sifting it up restores the heap. */
  lemma KeyDecreaseHoleUp(q: seq<nat>, loads: seq<int>, p: nat, key: int)
    requires HeapOrdered(q, loads) && p < |q| && multiset(q)[q[p]] == 1 && key <= loads[q[p]]
    ensures HoleUp(q, loads[q[p] := key], p)
  {
    var l := loads[q[p] := key];
    forall k | 0 < k < |q| && k != p ensures l[q[Parent(k)]] <= l[q[k]] {
      OnlyAt(q, p, k);
      if Parent(k) != p {
        OnlyAt(q, p, Parent(k));
      }
    }
    if p > 0 {
      forall k | 0 < k < |q| && Parent(k) == p ensures l[q[Parent(p)]] <= l[q[k]] {
        OnlyAt(q, p, k);
        OnlyAt(q, p, Parent(p));
        assert loads[q[Parent(p)]] <= loads[q[p]] <= loads[q[k]];
      }
    }
  }

  /** An entry that occurs once is found at no other position. */
  lemma OnlyAt(q: seq<nat>, p: nat, k: nat)
    requires p < |q| && k < |q| && k != p && multiset(q)[q[p]] == 1
    ensures q[k] != q[p]
  {
    if p < k {
      assert q == q[..k] + [q[k]] + q[k + 1..];
      assert q[p] == q[..k][p];
      assert multiset(q) == multiset(q[..k]) + multiset{q[k]} + multiset(q[k + 1..]);
      assert q[p] in multiset(q[..k]);
    } else {
      assert q == q[..p] + [q[p]] + q[p + 1..];
      assert q[k] == q[..p][k];
      assert multiset(q) == multiset(q[..p]) + multiset{q[p]} + multiset(q[p + 1..]);
      assert q[k] in multiset(q[..p]);
    }
  }

  // ---------------------------------------------------------------------
  // The basic example: keys 1, 0, 5, 4, 3 given to entries 0 to 4

  /** Adding entries 0 to 4, whose keys are 1, 0, 5, 4, 3, in that order:
      only entry 1 (key 0) moves, to the root, and the heap ends as
      `[1, 0, 2, 3, 4]`. */
  lemma HeapExampleAdds(loads: seq<int>)
    requires loads == [1, 0, 5, 4, 3]
    ensures Swim([] + [0], loads, 0) == [0]
    ensures Swim([0] + [1], loads, 1) == [1, 0]
    ensures Swim([1, 0] + [2], loads, 2) == [1, 0, 2]
    ensures Swim([1, 0, 2] + [3], loads, 3) == [1, 0, 2, 3]
    ensures Swim([1, 0, 2, 3] + [4], loads, 4) == [1, 0, 2, 3, 4]
  {
    assert [0] + [1] == [0, 1];
    assert Swim([0, 1], loads, 1) == Swim([1, 0], loads, 0);
    assert [1, 0] + [2] == [1, 0, 2];
    assert [1, 0, 2] + [3] == [1, 0, 2, 3];
    assert [1, 0, 2, 3] + [4] == [1, 0, 2, 3, 4];
  }

  /** Polling that heap five times takes out the keys in ascending order,
      0, 1, 3, 4, 5, and leaves it empty. */
  lemma HeapExamplePolls(loads: seq<int>)
    requires loads == [1, 0, 5, 4, 3]
    ensures var q0: seq<nat> := [1, 0, 2, 3, 4];
            var q1 := Rest(q0, loads);
            var q2 := Rest(q1, loads);
            var q3 := Rest(q2, loads);
            var q4 := Rest(q3, loads);
            && q4 != [] && Rest(q4, loads) == []
            && [loads[q0[0]], loads[q1[0]], loads[q2[0]], loads[q3[0]], loads[q4[0]]] == [0, 1, 3, 4, 5]
  {
    HeapExamplePoll(loads, [1, 0, 2, 3, 4], [4, 0, 2, 3], 1, [0, 4, 2, 3]);
    HeapExamplePoll(loads, [0, 4, 2, 3], [3, 4, 2], 1, [4, 3, 2]);
    HeapExamplePoll(loads, [4, 3, 2], [2, 3], 1, [3, 2]);
    var q: seq<nat> := [3, 2];
    assert [q[1]] + q[1..1] == [2];
  }

  /** One poll of the example: the last entry `a[0]`, moved to the root, is
      swapped once with its lighter child `l` and stays there. */
  lemma HeapExamplePoll(loads: seq<int>, q: seq<nat>, a: seq<nat>, l: nat, r: seq<nat>)
    requires InRange(q, |loads|) && InRange(a, |loads|) && |q| > 1 && a == [q[|q| - 1]] + q[1..|q| - 1]
    requires 0 < l < |a| && l == (if 2 < |a| && loads[a[2]] < loads[a[1]] then 2 else 1)
    requires loads[a[l]] < loads[a[0]] && r == Swap(a, 0, l) && |r| == |a| && InRange(r, |loads|)
    requires 2 * l + 1 < |r| ==> loads[r[l]] <= loads[r[2 * l + 1]]
    requires 2 * l + 2 < |r| ==> loads[r[l]] <= loads[r[2 * l + 2]]
    ensures Rest(q, loads) == r
  {
    LastToRoot(q, loads);
    SinkStep(a, loads, 0, l);
  }
}
