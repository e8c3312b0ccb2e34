/** Worked runs of the load-balancing strategy on fresh pools, checked
    step by step: each `enqueue` is shown to take one concrete heap to the
    next by unfolding the poll (`Rest`, a chain of `Sink` swaps) and the
    re-insertion (`Swim`, which never moves here). */
module LoadBalancerTrace {
  import opened Common
  import opened PriorityQueue
  import opened LoadBalancerStrategy

  // ---- 10 lanes ----

  lemma TenStepSink1(loads: seq<int>)
    requires loads == [0, 0, 0, 0, 0, 0, 0, 0, 0, 0]
    ensures Sink([9, 1, 2, 3, 4, 5, 6, 7, 8], loads, 0) == [9, 1, 2, 3, 4, 5, 6, 7, 8]
  {
    assert Sink([9, 1, 2, 3, 4, 5, 6, 7, 8], loads, 0) == [9, 1, 2, 3, 4, 5, 6, 7, 8];
  }

  lemma TenStepRest1()
    ensures Rest([0, 1, 2, 3, 4, 5, 6, 7, 8, 9], [0, 0, 0, 0, 0, 0, 0, 0, 0, 0]) == [9, 1, 2, 3, 4, 5, 6, 7, 8]
  {
    var q: seq<nat> := [0, 1, 2, 3, 4, 5, 6, 7, 8, 9];
    assert [q[9]] + q[1..9] == [9, 1, 2, 3, 4, 5, 6, 7, 8];
    TenStepSink1([0, 0, 0, 0, 0, 0, 0, 0, 0, 0]);
  }

  lemma TenStep1()
    ensures EnqueueOne(Balance([0, 1, 2, 3, 4, 5, 6, 7, 8, 9], [0, 0, 0, 0, 0, 0, 0, 0, 0, 0])) == Balance([9, 1, 2, 3, 4, 5, 6, 7, 8, 0], [1, 0, 0, 0, 0, 0, 0, 0, 0, 0])
  {
    TenStepRest1();
  }

  lemma TenStepSink2_1(loads: seq<int>)
    requires loads == [1, 0, 0, 0, 0, 0, 0, 0, 0, 0]
    ensures Sink([0, 1, 2, 3, 4, 5, 6, 7, 8], loads, 0) == Sink([1, 0, 2, 3, 4, 5, 6, 7, 8], loads, 1)
  {
    SinkStep([0, 1, 2, 3, 4, 5, 6, 7, 8], loads, 0, 1);
    assert Swap([0, 1, 2, 3, 4, 5, 6, 7, 8], 0, 1) == [1, 0, 2, 3, 4, 5, 6, 7, 8];
  }

  lemma TenStepSink2_2(loads: seq<int>)
    requires loads == [1, 0, 0, 0, 0, 0, 0, 0, 0, 0]
    ensures Sink([1, 0, 2, 3, 4, 5, 6, 7, 8], loads, 1) == Sink([1, 3, 2, 0, 4, 5, 6, 7, 8], loads, 3)
  {
    SinkStep([1, 0, 2, 3, 4, 5, 6, 7, 8], loads, 1, 3);
    assert Swap([1, 0, 2, 3, 4, 5, 6, 7, 8], 1, 3) == [1, 3, 2, 0, 4, 5, 6, 7, 8];
  }

  lemma TenStepSink2_3(loads: seq<int>)
    requires loads == [1, 0, 0, 0, 0, 0, 0, 0, 0, 0]
    ensures Sink([1, 3, 2, 0, 4, 5, 6, 7, 8], loads, 3) == Sink([1, 3, 2, 7, 4, 5, 6, 0, 8], loads, 7)
  {
    SinkStep([1, 3, 2, 0, 4, 5, 6, 7, 8], loads, 3, 7);
    assert Swap([1, 3, 2, 0, 4, 5, 6, 7, 8], 3, 7) == [1, 3, 2, 7, 4, 5, 6, 0, 8];
  }

  lemma TenStepSink2(loads: seq<int>)
    requires loads == [1, 0, 0, 0, 0, 0, 0, 0, 0, 0]
    ensures Sink([0, 1, 2, 3, 4, 5, 6, 7, 8], loads, 0) == [1, 3, 2, 7, 4, 5, 6, 0, 8]
  {
    TenStepSink2_1(loads);
    TenStepSink2_2(loads);
    TenStepSink2_3(loads);
    assert Sink([1, 3, 2, 7, 4, 5, 6, 0, 8], loads, 7) == [1, 3, 2, 7, 4, 5, 6, 0, 8];
  }

  lemma TenStepRest2()
    ensures Rest([9, 1, 2, 3, 4, 5, 6, 7, 8, 0], [1, 0, 0, 0, 0, 0, 0, 0, 0, 0]) == [1, 3, 2, 7, 4, 5, 6, 0, 8]
  {
    var q: seq<nat> := [9, 1, 2, 3, 4, 5, 6, 7, 8, 0];
    assert [q[9]] + q[1..9] == [0, 1, 2, 3, 4, 5, 6, 7, 8];
    TenStepSink2([1, 0, 0, 0, 0, 0, 0, 0, 0, 0]);
  }

  lemma TenStep2()
    ensures EnqueueOne(Balance([9, 1, 2, 3, 4, 5, 6, 7, 8, 0], [1, 0, 0, 0, 0, 0, 0, 0, 0, 0])) == Balance([1, 3, 2, 7, 4, 5, 6, 0, 8, 9], [1, 0, 0, 0, 0, 0, 0, 0, 0, 1])
  {
    TenStepRest2();
  }

  lemma TenStepSink3_1(loads: seq<int>)
    requires loads == [1, 0, 0, 0, 0, 0, 0, 0, 0, 1]
    ensures Sink([9, 3, 2, 7, 4, 5, 6, 0, 8], loads, 0) == Sink([3, 9, 2, 7, 4, 5, 6, 0, 8], loads, 1)
  {
    SinkStep([9, 3, 2, 7, 4, 5, 6, 0, 8], loads, 0, 1);
    assert Swap([9, 3, 2, 7, 4, 5, 6, 0, 8], 0, 1) == [3, 9, 2, 7, 4, 5, 6, 0, 8];
  }

  lemma TenStepSink3_2(loads: seq<int>)
    requires loads == [1, 0, 0, 0, 0, 0, 0, 0, 0, 1]
    ensures Sink([3, 9, 2, 7, 4, 5, 6, 0, 8], loads, 1) == Sink([3, 7, 2, 9, 4, 5, 6, 0, 8], loads, 3)
  {
    SinkStep([3, 9, 2, 7, 4, 5, 6, 0, 8], loads, 1, 3);
    assert Swap([3, 9, 2, 7, 4, 5, 6, 0, 8], 1, 3) == [3, 7, 2, 9, 4, 5, 6, 0, 8];
  }

  lemma TenStepSink3_3(loads: seq<int>)
    requires loads == [1, 0, 0, 0, 0, 0, 0, 0, 0, 1]
    ensures Sink([3, 7, 2, 9, 4, 5, 6, 0, 8], loads, 3) == Sink([3, 7, 2, 8, 4, 5, 6, 0, 9], loads, 8)
  {
    SinkStep([3, 7, 2, 9, 4, 5, 6, 0, 8], loads, 3, 8);
    assert Swap([3, 7, 2, 9, 4, 5, 6, 0, 8], 3, 8) == [3, 7, 2, 8, 4, 5, 6, 0, 9];
  }

  lemma TenStepSink3(loads: seq<int>)
    requires loads == [1, 0, 0, 0, 0, 0, 0, 0, 0, 1]
    ensures Sink([9, 3, 2, 7, 4, 5, 6, 0, 8], loads, 0) == [3, 7, 2, 8, 4, 5, 6, 0, 9]
  {
    TenStepSink3_1(loads);
    TenStepSink3_2(loads);
    TenStepSink3_3(loads);
    assert Sink([3, 7, 2, 8, 4, 5, 6, 0, 9], loads, 8) == [3, 7, 2, 8, 4, 5, 6, 0, 9];
  }

  lemma TenStepRest3()
    ensures Rest([1, 3, 2, 7, 4, 5, 6, 0, 8, 9], [1, 0, 0, 0, 0, 0, 0, 0, 0, 1]) == [3, 7, 2, 8, 4, 5, 6, 0, 9]
  {
    var q: seq<nat> := [1, 3, 2, 7, 4, 5, 6, 0, 8, 9];
    assert [q[9]] + q[1..9] == [9, 3, 2, 7, 4, 5, 6, 0, 8];
    TenStepSink3([1, 0, 0, 0, 0, 0, 0, 0, 0, 1]);
  }

  lemma TenStep3()
    ensures EnqueueOne(Balance([1, 3, 2, 7, 4, 5, 6, 0, 8, 9], [1, 0, 0, 0, 0, 0, 0, 0, 0, 1])) == Balance([3, 7, 2, 8, 4, 5, 6, 0, 9, 1], [1, 1, 0, 0, 0, 0, 0, 0, 0, 1])
  {
    TenStepRest3();
  }

  lemma TenStepSink4_1(loads: seq<int>)
    requires loads == [1, 1, 0, 0, 0, 0, 0, 0, 0, 1]
    ensures Sink([1, 7, 2, 8, 4, 5, 6, 0, 9], loads, 0) == Sink([7, 1, 2, 8, 4, 5, 6, 0, 9], loads, 1)
  {
    SinkStep([1, 7, 2, 8, 4, 5, 6, 0, 9], loads, 0, 1);
    assert Swap([1, 7, 2, 8, 4, 5, 6, 0, 9], 0, 1) == [7, 1, 2, 8, 4, 5, 6, 0, 9];
  }

  lemma TenStepSink4_2(loads: seq<int>)
    requires loads == [1, 1, 0, 0, 0, 0, 0, 0, 0, 1]
    ensures Sink([7, 1, 2, 8, 4, 5, 6, 0, 9], loads, 1) == Sink([7, 8, 2, 1, 4, 5, 6, 0, 9], loads, 3)
  {
    SinkStep([7, 1, 2, 8, 4, 5, 6, 0, 9], loads, 1, 3);
    assert Swap([7, 1, 2, 8, 4, 5, 6, 0, 9], 1, 3) == [7, 8, 2, 1, 4, 5, 6, 0, 9];
  }

  lemma TenStepSink4(loads: seq<int>)
    requires loads == [1, 1, 0, 0, 0, 0, 0, 0, 0, 1]
    ensures Sink([1, 7, 2, 8, 4, 5, 6, 0, 9], loads, 0) == [7, 8, 2, 1, 4, 5, 6, 0, 9]
  {
    TenStepSink4_1(loads);
    TenStepSink4_2(loads);
    assert Sink([7, 8, 2, 1, 4, 5, 6, 0, 9], loads, 3) == [7, 8, 2, 1, 4, 5, 6, 0, 9];
  }

  lemma TenStepRest4()
    ensures Rest([3, 7, 2, 8, 4, 5, 6, 0, 9, 1], [1, 1, 0, 0, 0, 0, 0, 0, 0, 1]) == [7, 8, 2, 1, 4, 5, 6, 0, 9]
  {
    var q: seq<nat> := [3, 7, 2, 8, 4, 5, 6, 0, 9, 1];
    assert [q[9]] + q[1..9] == [1, 7, 2, 8, 4, 5, 6, 0, 9];
    TenStepSink4([1, 1, 0, 0, 0, 0, 0, 0, 0, 1]);
  }

  lemma TenStep4()
    ensures EnqueueOne(Balance([3, 7, 2, 8, 4, 5, 6, 0, 9, 1], [1, 1, 0, 0, 0, 0, 0, 0, 0, 1])) == Balance([7, 8, 2, 1, 4, 5, 6, 0, 9, 3], [1, 1, 0, 1, 0, 0, 0, 0, 0, 1])
  {
    TenStepRest4();
  }

  lemma TenStepSink5_1(loads: seq<int>)
    requires loads == [1, 1, 0, 1, 0, 0, 0, 0, 0, 1]
    ensures Sink([3, 8, 2, 1, 4, 5, 6, 0, 9], loads, 0) == Sink([8, 3, 2, 1, 4, 5, 6, 0, 9], loads, 1)
  {
    SinkStep([3, 8, 2, 1, 4, 5, 6, 0, 9], loads, 0, 1);
    assert Swap([3, 8, 2, 1, 4, 5, 6, 0, 9], 0, 1) == [8, 3, 2, 1, 4, 5, 6, 0, 9];
  }

  lemma TenStepSink5_2(loads: seq<int>)
    requires loads == [1, 1, 0, 1, 0, 0, 0, 0, 0, 1]
    ensures Sink([8, 3, 2, 1, 4, 5, 6, 0, 9], loads, 1) == Sink([8, 4, 2, 1, 3, 5, 6, 0, 9], loads, 4)
  {
    SinkStep([8, 3, 2, 1, 4, 5, 6, 0, 9], loads, 1, 4);
    assert Swap([8, 3, 2, 1, 4, 5, 6, 0, 9], 1, 4) == [8, 4, 2, 1, 3, 5, 6, 0, 9];
  }

  lemma TenStepSink5(loads: seq<int>)
    requires loads == [1, 1, 0, 1, 0, 0, 0, 0, 0, 1]
    ensures Sink([3, 8, 2, 1, 4, 5, 6, 0, 9], loads, 0) == [8, 4, 2, 1, 3, 5, 6, 0, 9]
  {
    TenStepSink5_1(loads);
    TenStepSink5_2(loads);
    assert Sink([8, 4, 2, 1, 3, 5, 6, 0, 9], loads, 4) == [8, 4, 2, 1, 3, 5, 6, 0, 9];
  }

  lemma TenStepRest5()
    ensures Rest([7, 8, 2, 1, 4, 5, 6, 0, 9, 3], [1, 1, 0, 1, 0, 0, 0, 0, 0, 1]) == [8, 4, 2, 1, 3, 5, 6, 0, 9]
  {
    var q: seq<nat> := [7, 8, 2, 1, 4, 5, 6, 0, 9, 3];
    assert [q[9]] + q[1..9] == [3, 8, 2, 1, 4, 5, 6, 0, 9];
    TenStepSink5([1, 1, 0, 1, 0, 0, 0, 0, 0, 1]);
  }

  lemma TenStep5()
    ensures EnqueueOne(Balance([7, 8, 2, 1, 4, 5, 6, 0, 9, 3], [1, 1, 0, 1, 0, 0, 0, 0, 0, 1])) == Balance([8, 4, 2, 1, 3, 5, 6, 0, 9, 7], [1, 1, 0, 1, 0, 0, 0, 1, 0, 1])
  {
    TenStepRest5();
  }

  lemma TenStepSink6_1(loads: seq<int>)
    requires loads == [1, 1, 0, 1, 0, 0, 0, 1, 0, 1]
    ensures Sink([7, 4, 2, 1, 3, 5, 6, 0, 9], loads, 0) == Sink([4, 7, 2, 1, 3, 5, 6, 0, 9], loads, 1)
  {
    SinkStep([7, 4, 2, 1, 3, 5, 6, 0, 9], loads, 0, 1);
    assert Swap([7, 4, 2, 1, 3, 5, 6, 0, 9], 0, 1) == [4, 7, 2, 1, 3, 5, 6, 0, 9];
  }

  lemma TenStepSink6(loads: seq<int>)
    requires loads == [1, 1, 0, 1, 0, 0, 0, 1, 0, 1]
    ensures Sink([7, 4, 2, 1, 3, 5, 6, 0, 9], loads, 0) == [4, 7, 2, 1, 3, 5, 6, 0, 9]
  {
    TenStepSink6_1(loads);
    assert Sink([4, 7, 2, 1, 3, 5, 6, 0, 9], loads, 1) == [4, 7, 2, 1, 3, 5, 6, 0, 9];
  }

  lemma TenStepRest6()
    ensures Rest([8, 4, 2, 1, 3, 5, 6, 0, 9, 7], [1, 1, 0, 1, 0, 0, 0, 1, 0, 1]) == [4, 7, 2, 1, 3, 5, 6, 0, 9]
  {
    var q: seq<nat> := [8, 4, 2, 1, 3, 5, 6, 0, 9, 7];
    assert [q[9]] + q[1..9] == [7, 4, 2, 1, 3, 5, 6, 0, 9];
    TenStepSink6([1, 1, 0, 1, 0, 0, 0, 1, 0, 1]);
  }

  lemma TenStep6()
    ensures EnqueueOne(Balance([8, 4, 2, 1, 3, 5, 6, 0, 9, 7], [1, 1, 0, 1, 0, 0, 0, 1, 0, 1])) == Balance([4, 7, 2, 1, 3, 5, 6, 0, 9, 8], [1, 1, 0, 1, 0, 0, 0, 1, 1, 1])
  {
    TenStepRest6();
  }

  lemma TenStepSink7_1(loads: seq<int>)
    requires loads == [1, 1, 0, 1, 0, 0, 0, 1, 1, 1]
    ensures Sink([8, 7, 2, 1, 3, 5, 6, 0, 9], loads, 0) == Sink([2, 7, 8, 1, 3, 5, 6, 0, 9], loads, 2)
  {
    SinkStep([8, 7, 2, 1, 3, 5, 6, 0, 9], loads, 0, 2);
    assert Swap([8, 7, 2, 1, 3, 5, 6, 0, 9], 0, 2) == [2, 7, 8, 1, 3, 5, 6, 0, 9];
  }

  lemma TenStepSink7_2(loads: seq<int>)
    requires loads == [1, 1, 0, 1, 0, 0, 0, 1, 1, 1]
    ensures Sink([2, 7, 8, 1, 3, 5, 6, 0, 9], loads, 2) == Sink([2, 7, 5, 1, 3, 8, 6, 0, 9], loads, 5)
  {
    SinkStep([2, 7, 8, 1, 3, 5, 6, 0, 9], loads, 2, 5);
    assert Swap([2, 7, 8, 1, 3, 5, 6, 0, 9], 2, 5) == [2, 7, 5, 1, 3, 8, 6, 0, 9];
  }

  lemma TenStepSink7(loads: seq<int>)
    requires loads == [1, 1, 0, 1, 0, 0, 0, 1, 1, 1]
    ensures Sink([8, 7, 2, 1, 3, 5, 6, 0, 9], loads, 0) == [2, 7, 5, 1, 3, 8, 6, 0, 9]
  {
    TenStepSink7_1(loads);
    TenStepSink7_2(loads);
    assert Sink([2, 7, 5, 1, 3, 8, 6, 0, 9], loads, 5) == [2, 7, 5, 1, 3, 8, 6, 0, 9];
  }

  lemma TenStepRest7()
    ensures Rest([4, 7, 2, 1, 3, 5, 6, 0, 9, 8], [1, 1, 0, 1, 0, 0, 0, 1, 1, 1]) == [2, 7, 5, 1, 3, 8, 6, 0, 9]
  {
    var q: seq<nat> := [4, 7, 2, 1, 3, 5, 6, 0, 9, 8];
    assert [q[9]] + q[1..9] == [8, 7, 2, 1, 3, 5, 6, 0, 9];
    TenStepSink7([1, 1, 0, 1, 0, 0, 0, 1, 1, 1]);
  }

  lemma TenStep7()
    ensures EnqueueOne(Balance([4, 7, 2, 1, 3, 5, 6, 0, 9, 8], [1, 1, 0, 1, 0, 0, 0, 1, 1, 1])) == Balance([2, 7, 5, 1, 3, 8, 6, 0, 9, 4], [1, 1, 0, 1, 1, 0, 0, 1, 1, 1])
  {
    TenStepRest7();
  }

  lemma TenStepSink8_1(loads: seq<int>)
    requires loads == [1, 1, 0, 1, 1, 0, 0, 1, 1, 1]
    ensures Sink([4, 7, 5, 1, 3, 8, 6, 0, 9], loads, 0) == Sink([5, 7, 4, 1, 3, 8, 6, 0, 9], loads, 2)
  {
    SinkStep([4, 7, 5, 1, 3, 8, 6, 0, 9], loads, 0, 2);
    assert Swap([4, 7, 5, 1, 3, 8, 6, 0, 9], 0, 2) == [5, 7, 4, 1, 3, 8, 6, 0, 9];
  }

  lemma TenStepSink8_2(loads: seq<int>)
    requires loads == [1, 1, 0, 1, 1, 0, 0, 1, 1, 1]
    ensures Sink([5, 7, 4, 1, 3, 8, 6, 0, 9], loads, 2) == Sink([5, 7, 6, 1, 3, 8, 4, 0, 9], loads, 6)
  {
    SinkStep([5, 7, 4, 1, 3, 8, 6, 0, 9], loads, 2, 6);
    assert Swap([5, 7, 4, 1, 3, 8, 6, 0, 9], 2, 6) == [5, 7, 6, 1, 3, 8, 4, 0, 9];
  }

  lemma TenStepSink8(loads: seq<int>)
    requires loads == [1, 1, 0, 1, 1, 0, 0, 1, 1, 1]
    ensures Sink([4, 7, 5, 1, 3, 8, 6, 0, 9], loads, 0) == [5, 7, 6, 1, 3, 8, 4, 0, 9]
  {
    TenStepSink8_1(loads);
    TenStepSink8_2(loads);
    assert Sink([5, 7, 6, 1, 3, 8, 4, 0, 9], loads, 6) == [5, 7, 6, 1, 3, 8, 4, 0, 9];
  }

  lemma TenStepRest8()
    ensures Rest([2, 7, 5, 1, 3, 8, 6, 0, 9, 4], [1, 1, 0, 1, 1, 0, 0, 1, 1, 1]) == [5, 7, 6, 1, 3, 8, 4, 0, 9]
  {
    var q: seq<nat> := [2, 7, 5, 1, 3, 8, 6, 0, 9, 4];
    assert [q[9]] + q[1..9] == [4, 7, 5, 1, 3, 8, 6, 0, 9];
    TenStepSink8([1, 1, 0, 1, 1, 0, 0, 1, 1, 1]);
  }

  lemma TenStep8()
    ensures EnqueueOne(Balance([2, 7, 5, 1, 3, 8, 6, 0, 9, 4], [1, 1, 0, 1, 1, 0, 0, 1, 1, 1])) == Balance([5, 7, 6, 1, 3, 8, 4, 0, 9, 2], [1, 1, 1, 1, 1, 0, 0, 1, 1, 1])
  {
    TenStepRest8();
  }

  lemma TenStepSink9_1(loads: seq<int>)
    requires loads == [1, 1, 1, 1, 1, 0, 0, 1, 1, 1]
    ensures Sink([2, 7, 6, 1, 3, 8, 4, 0, 9], loads, 0) == Sink([6, 7, 2, 1, 3, 8, 4, 0, 9], loads, 2)
  {
    SinkStep([2, 7, 6, 1, 3, 8, 4, 0, 9], loads, 0, 2);
    assert Swap([2, 7, 6, 1, 3, 8, 4, 0, 9], 0, 2) == [6, 7, 2, 1, 3, 8, 4, 0, 9];
  }

  lemma TenStepSink9(loads: seq<int>)
    requires loads == [1, 1, 1, 1, 1, 0, 0, 1, 1, 1]
    ensures Sink([2, 7, 6, 1, 3, 8, 4, 0, 9], loads, 0) == [6, 7, 2, 1, 3, 8, 4, 0, 9]
  {
    TenStepSink9_1(loads);
    assert Sink([6, 7, 2, 1, 3, 8, 4, 0, 9], loads, 2) == [6, 7, 2, 1, 3, 8, 4, 0, 9];
  }

  lemma TenStepRest9()
    ensures Rest([5, 7, 6, 1, 3, 8, 4, 0, 9, 2], [1, 1, 1, 1, 1, 0, 0, 1, 1, 1]) == [6, 7, 2, 1, 3, 8, 4, 0, 9]
  {
    var q: seq<nat> := [5, 7, 6, 1, 3, 8, 4, 0, 9, 2];
    assert [q[9]] + q[1..9] == [2, 7, 6, 1, 3, 8, 4, 0, 9];
    TenStepSink9([1, 1, 1, 1, 1, 0, 0, 1, 1, 1]);
  }

  lemma TenStep9()
    ensures EnqueueOne(Balance([5, 7, 6, 1, 3, 8, 4, 0, 9, 2], [1, 1, 1, 1, 1, 0, 0, 1, 1, 1])) == Balance([6, 7, 2, 1, 3, 8, 4, 0, 9, 5], [1, 1, 1, 1, 1, 1, 0, 1, 1, 1])
  {
    TenStepRest9();
  }

  lemma TenStepSink10(loads: seq<int>)
    requires loads == [1, 1, 1, 1, 1, 1, 0, 1, 1, 1]
    ensures Sink([5, 7, 2, 1, 3, 8, 4, 0, 9], loads, 0) == [5, 7, 2, 1, 3, 8, 4, 0, 9]
  {
    assert Sink([5, 7, 2, 1, 3, 8, 4, 0, 9], loads, 0) == [5, 7, 2, 1, 3, 8, 4, 0, 9];
  }

  lemma TenStepRest10()
    ensures Rest([6, 7, 2, 1, 3, 8, 4, 0, 9, 5], [1, 1, 1, 1, 1, 1, 0, 1, 1, 1]) == [5, 7, 2, 1, 3, 8, 4, 0, 9]
  {
    var q: seq<nat> := [6, 7, 2, 1, 3, 8, 4, 0, 9, 5];
    assert [q[9]] + q[1..9] == [5, 7, 2, 1, 3, 8, 4, 0, 9];
    TenStepSink10([1, 1, 1, 1, 1, 1, 0, 1, 1, 1]);
  }

  lemma TenStep10()
    ensures EnqueueOne(Balance([6, 7, 2, 1, 3, 8, 4, 0, 9, 5], [1, 1, 1, 1, 1, 1, 0, 1, 1, 1])) == Balance([5, 7, 2, 1, 3, 8, 4, 0, 9, 6], [1, 1, 1, 1, 1, 1, 1, 1, 1, 1])
  {
    TenStepRest10();
  }

  lemma TenStepSink11(loads: seq<int>)
    requires loads == [1, 1, 1, 1, 1, 1, 1, 1, 1, 1]
    ensures Sink([6, 7, 2, 1, 3, 8, 4, 0, 9], loads, 0) == [6, 7, 2, 1, 3, 8, 4, 0, 9]
  {
    assert Sink([6, 7, 2, 1, 3, 8, 4, 0, 9], loads, 0) == [6, 7, 2, 1, 3, 8, 4, 0, 9];
  }

  lemma TenStepRest11()
    ensures Rest([5, 7, 2, 1, 3, 8, 4, 0, 9, 6], [1, 1, 1, 1, 1, 1, 1, 1, 1, 1]) == [6, 7, 2, 1, 3, 8, 4, 0, 9]
  {
    var q: seq<nat> := [5, 7, 2, 1, 3, 8, 4, 0, 9, 6];
    assert [q[9]] + q[1..9] == [6, 7, 2, 1, 3, 8, 4, 0, 9];
    TenStepSink11([1, 1, 1, 1, 1, 1, 1, 1, 1, 1]);
  }

  lemma TenStep11()
    ensures EnqueueOne(Balance([5, 7, 2, 1, 3, 8, 4, 0, 9, 6], [1, 1, 1, 1, 1, 1, 1, 1, 1, 1])) == Balance([6, 7, 2, 1, 3, 8, 4, 0, 9, 5], [1, 1, 1, 1, 1, 2, 1, 1, 1, 1])
  {
    TenStepRest11();
  }

  lemma TenStepSink12_1(loads: seq<int>)
    requires loads == [1, 1, 1, 1, 1, 2, 1, 1, 1, 1]
    ensures Sink([5, 7, 2, 1, 3, 8, 4, 0, 9], loads, 0) == Sink([7, 5, 2, 1, 3, 8, 4, 0, 9], loads, 1)
  {
    SinkStep([5, 7, 2, 1, 3, 8, 4, 0, 9], loads, 0, 1);
    assert Swap([5, 7, 2, 1, 3, 8, 4, 0, 9], 0, 1) == [7, 5, 2, 1, 3, 8, 4, 0, 9];
  }

  lemma TenStepSink12_2(loads: seq<int>)
    requires loads == [1, 1, 1, 1, 1, 2, 1, 1, 1, 1]
    ensures Sink([7, 5, 2, 1, 3, 8, 4, 0, 9], loads, 1) == Sink([7, 1, 2, 5, 3, 8, 4, 0, 9], loads, 3)
  {
    SinkStep([7, 5, 2, 1, 3, 8, 4, 0, 9], loads, 1, 3);
    assert Swap([7, 5, 2, 1, 3, 8, 4, 0, 9], 1, 3) == [7, 1, 2, 5, 3, 8, 4, 0, 9];
  }

  lemma TenStepSink12_3(loads: seq<int>)
    requires loads == [1, 1, 1, 1, 1, 2, 1, 1, 1, 1]
    ensures Sink([7, 1, 2, 5, 3, 8, 4, 0, 9], loads, 3) == Sink([7, 1, 2, 0, 3, 8, 4, 5, 9], loads, 7)
  {
    SinkStep([7, 1, 2, 5, 3, 8, 4, 0, 9], loads, 3, 7);
    assert Swap([7, 1, 2, 5, 3, 8, 4, 0, 9], 3, 7) == [7, 1, 2, 0, 3, 8, 4, 5, 9];
  }

  lemma TenStepSink12(loads: seq<int>)
    requires loads == [1, 1, 1, 1, 1, 2, 1, 1, 1, 1]
    ensures Sink([5, 7, 2, 1, 3, 8, 4, 0, 9], loads, 0) == [7, 1, 2, 0, 3, 8, 4, 5, 9]
  {
    TenStepSink12_1(loads);
    TenStepSink12_2(loads);
    TenStepSink12_3(loads);
    assert Sink([7, 1, 2, 0, 3, 8, 4, 5, 9], loads, 7) == [7, 1, 2, 0, 3, 8, 4, 5, 9];
  }

  lemma TenStepRest12()
    ensures Rest([6, 7, 2, 1, 3, 8, 4, 0, 9, 5], [1, 1, 1, 1, 1, 2, 1, 1, 1, 1]) == [7, 1, 2, 0, 3, 8, 4, 5, 9]
  {
    var q: seq<nat> := [6, 7, 2, 1, 3, 8, 4, 0, 9, 5];
    assert [q[9]] + q[1..9] == [5, 7, 2, 1, 3, 8, 4, 0, 9];
    TenStepSink12([1, 1, 1, 1, 1, 2, 1, 1, 1, 1]);
  }

  lemma TenStep12()
    ensures EnqueueOne(Balance([6, 7, 2, 1, 3, 8, 4, 0, 9, 5], [1, 1, 1, 1, 1, 2, 1, 1, 1, 1])) == Balance([7, 1, 2, 0, 3, 8, 4, 5, 9, 6], [1, 1, 1, 1, 1, 2, 2, 1, 1, 1])
  {
    TenStepRest12();
  }

  lemma TenStepSink13_1(loads: seq<int>)
    requires loads == [1, 1, 1, 1, 1, 2, 2, 1, 1, 1]
    ensures Sink([6, 1, 2, 0, 3, 8, 4, 5, 9], loads, 0) == Sink([1, 6, 2, 0, 3, 8, 4, 5, 9], loads, 1)
  {
    SinkStep([6, 1, 2, 0, 3, 8, 4, 5, 9], loads, 0, 1);
    assert Swap([6, 1, 2, 0, 3, 8, 4, 5, 9], 0, 1) == [1, 6, 2, 0, 3, 8, 4, 5, 9];
  }

  lemma TenStepSink13_2(loads: seq<int>)
    requires loads == [1, 1, 1, 1, 1, 2, 2, 1, 1, 1]
    ensures Sink([1, 6, 2, 0, 3, 8, 4, 5, 9], loads, 1) == Sink([1, 0, 2, 6, 3, 8, 4, 5, 9], loads, 3)
  {
    SinkStep([1, 6, 2, 0, 3, 8, 4, 5, 9], loads, 1, 3);
    assert Swap([1, 6, 2, 0, 3, 8, 4, 5, 9], 1, 3) == [1, 0, 2, 6, 3, 8, 4, 5, 9];
  }

  lemma TenStepSink13_3(loads: seq<int>)
    requires loads == [1, 1, 1, 1, 1, 2, 2, 1, 1, 1]
    ensures Sink([1, 0, 2, 6, 3, 8, 4, 5, 9], loads, 3) == Sink([1, 0, 2, 9, 3, 8, 4, 5, 6], loads, 8)
  {
    SinkStep([1, 0, 2, 6, 3, 8, 4, 5, 9], loads, 3, 8);
    assert Swap([1, 0, 2, 6, 3, 8, 4, 5, 9], 3, 8) == [1, 0, 2, 9, 3, 8, 4, 5, 6];
  }

  lemma TenStepSink13(loads: seq<int>)
    requires loads == [1, 1, 1, 1, 1, 2, 2, 1, 1, 1]
    ensures Sink([6, 1, 2, 0, 3, 8, 4, 5, 9], loads, 0) == [1, 0, 2, 9, 3, 8, 4, 5, 6]
  {
    TenStepSink13_1(loads);
    TenStepSink13_2(loads);
    TenStepSink13_3(loads);
    assert Sink([1, 0, 2, 9, 3, 8, 4, 5, 6], loads, 8) == [1, 0, 2, 9, 3, 8, 4, 5, 6];
  }

  lemma TenStepRest13()
    ensures Rest([7, 1, 2, 0, 3, 8, 4, 5, 9, 6], [1, 1, 1, 1, 1, 2, 2, 1, 1, 1]) == [1, 0, 2, 9, 3, 8, 4, 5, 6]
  {
    var q: seq<nat> := [7, 1, 2, 0, 3, 8, 4, 5, 9, 6];
    assert [q[9]] + q[1..9] == [6, 1, 2, 0, 3, 8, 4, 5, 9];
    TenStepSink13([1, 1, 1, 1, 1, 2, 2, 1, 1, 1]);
  }

  lemma TenStep13()
    ensures EnqueueOne(Balance([7, 1, 2, 0, 3, 8, 4, 5, 9, 6], [1, 1, 1, 1, 1, 2, 2, 1, 1, 1])) == Balance([1, 0, 2, 9, 3, 8, 4, 5, 6, 7], [1, 1, 1, 1, 1, 2, 2, 2, 1, 1])
  {
    TenStepRest13();
  }

  lemma TenStepSink14_1(loads: seq<int>)
    requires loads == [1, 1, 1, 1, 1, 2, 2, 2, 1, 1]
    ensures Sink([7, 0, 2, 9, 3, 8, 4, 5, 6], loads, 0) == Sink([0, 7, 2, 9, 3, 8, 4, 5, 6], loads, 1)
  {
    SinkStep([7, 0, 2, 9, 3, 8, 4, 5, 6], loads, 0, 1);
    assert Swap([7, 0, 2, 9, 3, 8, 4, 5, 6], 0, 1) == [0, 7, 2, 9, 3, 8, 4, 5, 6];
  }

  lemma TenStepSink14_2(loads: seq<int>)
    requires loads == [1, 1, 1, 1, 1, 2, 2, 2, 1, 1]
    ensures Sink([0, 7, 2, 9, 3, 8, 4, 5, 6], loads, 1) == Sink([0, 9, 2, 7, 3, 8, 4, 5, 6], loads, 3)
  {
    SinkStep([0, 7, 2, 9, 3, 8, 4, 5, 6], loads, 1, 3);
    assert Swap([0, 7, 2, 9, 3, 8, 4, 5, 6], 1, 3) == [0, 9, 2, 7, 3, 8, 4, 5, 6];
  }

  lemma TenStepSink14(loads: seq<int>)
    requires loads == [1, 1, 1, 1, 1, 2, 2, 2, 1, 1]
    ensures Sink([7, 0, 2, 9, 3, 8, 4, 5, 6], loads, 0) == [0, 9, 2, 7, 3, 8, 4, 5, 6]
  {
    TenStepSink14_1(loads);
    TenStepSink14_2(loads);
    assert Sink([0, 9, 2, 7, 3, 8, 4, 5, 6], loads, 3) == [0, 9, 2, 7, 3, 8, 4, 5, 6];
  }

  lemma TenStepRest14()
    ensures Rest([1, 0, 2, 9, 3, 8, 4, 5, 6, 7], [1, 1, 1, 1, 1, 2, 2, 2, 1, 1]) == [0, 9, 2, 7, 3, 8, 4, 5, 6]
  {
    var q: seq<nat> := [1, 0, 2, 9, 3, 8, 4, 5, 6, 7];
    assert [q[9]] + q[1..9] == [7, 0, 2, 9, 3, 8, 4, 5, 6];
    TenStepSink14([1, 1, 1, 1, 1, 2, 2, 2, 1, 1]);
  }

  lemma TenStep14()
    ensures EnqueueOne(Balance([1, 0, 2, 9, 3, 8, 4, 5, 6, 7], [1, 1, 1, 1, 1, 2, 2, 2, 1, 1])) == Balance([0, 9, 2, 7, 3, 8, 4, 5, 6, 1], [1, 2, 1, 1, 1, 2, 2, 2, 1, 1])
  {
    TenStepRest14();
  }

  lemma TenStepSink15_1(loads: seq<int>)
    requires loads == [1, 2, 1, 1, 1, 2, 2, 2, 1, 1]
    ensures Sink([1, 9, 2, 7, 3, 8, 4, 5, 6], loads, 0) == Sink([9, 1, 2, 7, 3, 8, 4, 5, 6], loads, 1)
  {
    SinkStep([1, 9, 2, 7, 3, 8, 4, 5, 6], loads, 0, 1);
    assert Swap([1, 9, 2, 7, 3, 8, 4, 5, 6], 0, 1) == [9, 1, 2, 7, 3, 8, 4, 5, 6];
  }

  lemma TenStepSink15_2(loads: seq<int>)
    requires loads == [1, 2, 1, 1, 1, 2, 2, 2, 1, 1]
    ensures Sink([9, 1, 2, 7, 3, 8, 4, 5, 6], loads, 1) == Sink([9, 3, 2, 7, 1, 8, 4, 5, 6], loads, 4)
  {
    SinkStep([9, 1, 2, 7, 3, 8, 4, 5, 6], loads, 1, 4);
    assert Swap([9, 1, 2, 7, 3, 8, 4, 5, 6], 1, 4) == [9, 3, 2, 7, 1, 8, 4, 5, 6];
  }

  lemma TenStepSink15(loads: seq<int>)
    requires loads == [1, 2, 1, 1, 1, 2, 2, 2, 1, 1]
    ensures Sink([1, 9, 2, 7, 3, 8, 4, 5, 6], loads, 0) == [9, 3, 2, 7, 1, 8, 4, 5, 6]
  {
    TenStepSink15_1(loads);
    TenStepSink15_2(loads);
    assert Sink([9, 3, 2, 7, 1, 8, 4, 5, 6], loads, 4) == [9, 3, 2, 7, 1, 8, 4, 5, 6];
  }

  lemma TenStepRest15()
    ensures Rest([0, 9, 2, 7, 3, 8, 4, 5, 6, 1], [1, 2, 1, 1, 1, 2, 2, 2, 1, 1]) == [9, 3, 2, 7, 1, 8, 4, 5, 6]
  {
    var q: seq<nat> := [0, 9, 2, 7, 3, 8, 4, 5, 6, 1];
    assert [q[9]] + q[1..9] == [1, 9, 2, 7, 3, 8, 4, 5, 6];
    TenStepSink15([1, 2, 1, 1, 1, 2, 2, 2, 1, 1]);
  }

  lemma TenStep15()
    ensures EnqueueOne(Balance([0, 9, 2, 7, 3, 8, 4, 5, 6, 1], [1, 2, 1, 1, 1, 2, 2, 2, 1, 1])) == Balance([9, 3, 2, 7, 1, 8, 4, 5, 6, 0], [2, 2, 1, 1, 1, 2, 2, 2, 1, 1])
  {
    TenStepRest15();
  }

  lemma TenStepSink16_1(loads: seq<int>)
    requires loads == [2, 2, 1, 1, 1, 2, 2, 2, 1, 1]
    ensures Sink([0, 3, 2, 7, 1, 8, 4, 5, 6], loads, 0) == Sink([3, 0, 2, 7, 1, 8, 4, 5, 6], loads, 1)
  {
    SinkStep([0, 3, 2, 7, 1, 8, 4, 5, 6], loads, 0, 1);
    assert Swap([0, 3, 2, 7, 1, 8, 4, 5, 6], 0, 1) == [3, 0, 2, 7, 1, 8, 4, 5, 6];
  }

  lemma TenStepSink16(loads: seq<int>)
    requires loads == [2, 2, 1, 1, 1, 2, 2, 2, 1, 1]
    ensures Sink([0, 3, 2, 7, 1, 8, 4, 5, 6], loads, 0) == [3, 0, 2, 7, 1, 8, 4, 5, 6]
  {
    TenStepSink16_1(loads);
    assert Sink([3, 0, 2, 7, 1, 8, 4, 5, 6], loads, 1) == [3, 0, 2, 7, 1, 8, 4, 5, 6];
  }

  lemma TenStepRest16()
    ensures Rest([9, 3, 2, 7, 1, 8, 4, 5, 6, 0], [2, 2, 1, 1, 1, 2, 2, 2, 1, 1]) == [3, 0, 2, 7, 1, 8, 4, 5, 6]
  {
    var q: seq<nat> := [9, 3, 2, 7, 1, 8, 4, 5, 6, 0];
    assert [q[9]] + q[1..9] == [0, 3, 2, 7, 1, 8, 4, 5, 6];
    TenStepSink16([2, 2, 1, 1, 1, 2, 2, 2, 1, 1]);
  }

  lemma TenStep16()
    ensures EnqueueOne(Balance([9, 3, 2, 7, 1, 8, 4, 5, 6, 0], [2, 2, 1, 1, 1, 2, 2, 2, 1, 1])) == Balance([3, 0, 2, 7, 1, 8, 4, 5, 6, 9], [2, 2, 1, 1, 1, 2, 2, 2, 1, 2])
  {
    TenStepRest16();
  }

  lemma TenStepSink17_1(loads: seq<int>)
    requires loads == [2, 2, 1, 1, 1, 2, 2, 2, 1, 2]
    ensures Sink([9, 0, 2, 7, 1, 8, 4, 5, 6], loads, 0) == Sink([2, 0, 9, 7, 1, 8, 4, 5, 6], loads, 2)
  {
    SinkStep([9, 0, 2, 7, 1, 8, 4, 5, 6], loads, 0, 2);
    assert Swap([9, 0, 2, 7, 1, 8, 4, 5, 6], 0, 2) == [2, 0, 9, 7, 1, 8, 4, 5, 6];
  }

  lemma TenStepSink17_2(loads: seq<int>)
    requires loads == [2, 2, 1, 1, 1, 2, 2, 2, 1, 2]
    ensures Sink([2, 0, 9, 7, 1, 8, 4, 5, 6], loads, 2) == Sink([2, 0, 8, 7, 1, 9, 4, 5, 6], loads, 5)
  {
    SinkStep([2, 0, 9, 7, 1, 8, 4, 5, 6], loads, 2, 5);
    assert Swap([2, 0, 9, 7, 1, 8, 4, 5, 6], 2, 5) == [2, 0, 8, 7, 1, 9, 4, 5, 6];
  }

  lemma TenStepSink17(loads: seq<int>)
    requires loads == [2, 2, 1, 1, 1, 2, 2, 2, 1, 2]
    ensures Sink([9, 0, 2, 7, 1, 8, 4, 5, 6], loads, 0) == [2, 0, 8, 7, 1, 9, 4, 5, 6]
  {
    TenStepSink17_1(loads);
    TenStepSink17_2(loads);
    assert Sink([2, 0, 8, 7, 1, 9, 4, 5, 6], loads, 5) == [2, 0, 8, 7, 1, 9, 4, 5, 6];
  }

  lemma TenStepRest17()
    ensures Rest([3, 0, 2, 7, 1, 8, 4, 5, 6, 9], [2, 2, 1, 1, 1, 2, 2, 2, 1, 2]) == [2, 0, 8, 7, 1, 9, 4, 5, 6]
  {
    var q: seq<nat> := [3, 0, 2, 7, 1, 8, 4, 5, 6, 9];
    assert [q[9]] + q[1..9] == [9, 0, 2, 7, 1, 8, 4, 5, 6];
    TenStepSink17([2, 2, 1, 1, 1, 2, 2, 2, 1, 2]);
  }

  lemma TenStep17()
    ensures EnqueueOne(Balance([3, 0, 2, 7, 1, 8, 4, 5, 6, 9], [2, 2, 1, 1, 1, 2, 2, 2, 1, 2])) == Balance([2, 0, 8, 7, 1, 9, 4, 5, 6, 3], [2, 2, 1, 2, 1, 2, 2, 2, 1, 2])
  {
    TenStepRest17();
  }

  lemma TenStepSink18_1(loads: seq<int>)
    requires loads == [2, 2, 1, 2, 1, 2, 2, 2, 1, 2]
    ensures Sink([3, 0, 8, 7, 1, 9, 4, 5, 6], loads, 0) == Sink([8, 0, 3, 7, 1, 9, 4, 5, 6], loads, 2)
  {
    SinkStep([3, 0, 8, 7, 1, 9, 4, 5, 6], loads, 0, 2);
    assert Swap([3, 0, 8, 7, 1, 9, 4, 5, 6], 0, 2) == [8, 0, 3, 7, 1, 9, 4, 5, 6];
  }

  lemma TenStepSink18_2(loads: seq<int>)
    requires loads == [2, 2, 1, 2, 1, 2, 2, 2, 1, 2]
    ensures Sink([8, 0, 3, 7, 1, 9, 4, 5, 6], loads, 2) == Sink([8, 0, 4, 7, 1, 9, 3, 5, 6], loads, 6)
  {
    SinkStep([8, 0, 3, 7, 1, 9, 4, 5, 6], loads, 2, 6);
    assert Swap([8, 0, 3, 7, 1, 9, 4, 5, 6], 2, 6) == [8, 0, 4, 7, 1, 9, 3, 5, 6];
  }

  lemma TenStepSink18(loads: seq<int>)
    requires loads == [2, 2, 1, 2, 1, 2, 2, 2, 1, 2]
    ensures Sink([3, 0, 8, 7, 1, 9, 4, 5, 6], loads, 0) == [8, 0, 4, 7, 1, 9, 3, 5, 6]
  {
    TenStepSink18_1(loads);
    TenStepSink18_2(loads);
    assert Sink([8, 0, 4, 7, 1, 9, 3, 5, 6], loads, 6) == [8, 0, 4, 7, 1, 9, 3, 5, 6];
  }

  lemma TenStepRest18()
    ensures Rest([2, 0, 8, 7, 1, 9, 4, 5, 6, 3], [2, 2, 1, 2, 1, 2, 2, 2, 1, 2]) == [8, 0, 4, 7, 1, 9, 3, 5, 6]
  {
    var q: seq<nat> := [2, 0, 8, 7, 1, 9, 4, 5, 6, 3];
    assert [q[9]] + q[1..9] == [3, 0, 8, 7, 1, 9, 4, 5, 6];
    TenStepSink18([2, 2, 1, 2, 1, 2, 2, 2, 1, 2]);
  }

  lemma TenStep18()
    ensures EnqueueOne(Balance([2, 0, 8, 7, 1, 9, 4, 5, 6, 3], [2, 2, 1, 2, 1, 2, 2, 2, 1, 2])) == Balance([8, 0, 4, 7, 1, 9, 3, 5, 6, 2], [2, 2, 2, 2, 1, 2, 2, 2, 1, 2])
  {
    TenStepRest18();
  }

  lemma TenStepSink19_1(loads: seq<int>)
    requires loads == [2, 2, 2, 2, 1, 2, 2, 2, 1, 2]
    ensures Sink([2, 0, 4, 7, 1, 9, 3, 5, 6], loads, 0) == Sink([4, 0, 2, 7, 1, 9, 3, 5, 6], loads, 2)
  {
    SinkStep([2, 0, 4, 7, 1, 9, 3, 5, 6], loads, 0, 2);
    assert Swap([2, 0, 4, 7, 1, 9, 3, 5, 6], 0, 2) == [4, 0, 2, 7, 1, 9, 3, 5, 6];
  }

  lemma TenStepSink19(loads: seq<int>)
    requires loads == [2, 2, 2, 2, 1, 2, 2, 2, 1, 2]
    ensures Sink([2, 0, 4, 7, 1, 9, 3, 5, 6], loads, 0) == [4, 0, 2, 7, 1, 9, 3, 5, 6]
  {
    TenStepSink19_1(loads);
    assert Sink([4, 0, 2, 7, 1, 9, 3, 5, 6], loads, 2) == [4, 0, 2, 7, 1, 9, 3, 5, 6];
  }

  lemma TenStepRest19()
    ensures Rest([8, 0, 4, 7, 1, 9, 3, 5, 6, 2], [2, 2, 2, 2, 1, 2, 2, 2, 1, 2]) == [4, 0, 2, 7, 1, 9, 3, 5, 6]
  {
    var q: seq<nat> := [8, 0, 4, 7, 1, 9, 3, 5, 6, 2];
    assert [q[9]] + q[1..9] == [2, 0, 4, 7, 1, 9, 3, 5, 6];
    TenStepSink19([2, 2, 2, 2, 1, 2, 2, 2, 1, 2]);
  }

  lemma TenStep19()
    ensures EnqueueOne(Balance([8, 0, 4, 7, 1, 9, 3, 5, 6, 2], [2, 2, 2, 2, 1, 2, 2, 2, 1, 2])) == Balance([4, 0, 2, 7, 1, 9, 3, 5, 6, 8], [2, 2, 2, 2, 1, 2, 2, 2, 2, 2])
  {
    TenStepRest19();
  }

  lemma TenStepSink20(loads: seq<int>)
    requires loads == [2, 2, 2, 2, 1, 2, 2, 2, 2, 2]
    ensures Sink([8, 0, 2, 7, 1, 9, 3, 5, 6], loads, 0) == [8, 0, 2, 7, 1, 9, 3, 5, 6]
  {
    assert Sink([8, 0, 2, 7, 1, 9, 3, 5, 6], loads, 0) == [8, 0, 2, 7, 1, 9, 3, 5, 6];
  }

  lemma TenStepRest20()
    ensures Rest([4, 0, 2, 7, 1, 9, 3, 5, 6, 8], [2, 2, 2, 2, 1, 2, 2, 2, 2, 2]) == [8, 0, 2, 7, 1, 9, 3, 5, 6]
  {
    var q: seq<nat> := [4, 0, 2, 7, 1, 9, 3, 5, 6, 8];
    assert [q[9]] + q[1..9] == [8, 0, 2, 7, 1, 9, 3, 5, 6];
    TenStepSink20([2, 2, 2, 2, 1, 2, 2, 2, 2, 2]);
  }

  lemma TenStep20()
    ensures EnqueueOne(Balance([4, 0, 2, 7, 1, 9, 3, 5, 6, 8], [2, 2, 2, 2, 1, 2, 2, 2, 2, 2])) == Balance([8, 0, 2, 7, 1, 9, 3, 5, 6, 4], [2, 2, 2, 2, 2, 2, 2, 2, 2, 2])
  {
    TenStepRest20();
  }

  lemma TenLanesPicks0(b: Balance)
    requires b == Balance([0, 1, 2, 3, 4, 5, 6, 7, 8, 9], [0, 0, 0, 0, 0, 0, 0, 0, 0, 0])
    ensures Ready(b)
    ensures Picks(b, 0) == []
  {
  }

  lemma TenLanesPicks1(b: Balance)
    requires b == Balance([0, 1, 2, 3, 4, 5, 6, 7, 8, 9], [0, 0, 0, 0, 0, 0, 0, 0, 0, 0])
    ensures Ready(b)
    ensures Picks(b, 1) == [0]
  {
    TenLanesPicks0(b);
    TenLanesRun0(b);
    assert Picks(b, 1) == Picks(b, 0) + [0];
  }

  lemma TenLanesPicks2(b: Balance)
    requires b == Balance([0, 1, 2, 3, 4, 5, 6, 7, 8, 9], [0, 0, 0, 0, 0, 0, 0, 0, 0, 0])
    ensures Ready(b)
    ensures Picks(b, 2) == [0, 9]
  {
    TenLanesPicks1(b);
    TenLanesRun1(b);
    assert Picks(b, 2) == Picks(b, 1) + [9];
  }

  lemma TenLanesPicks3(b: Balance)
    requires b == Balance([0, 1, 2, 3, 4, 5, 6, 7, 8, 9], [0, 0, 0, 0, 0, 0, 0, 0, 0, 0])
    ensures Ready(b)
    ensures Picks(b, 3) == [0, 9, 1]
  {
    TenLanesPicks2(b);
    TenLanesRun2(b);
    assert Picks(b, 3) == Picks(b, 2) + [1];
  }

  lemma TenLanesPicks4(b: Balance)
    requires b == Balance([0, 1, 2, 3, 4, 5, 6, 7, 8, 9], [0, 0, 0, 0, 0, 0, 0, 0, 0, 0])
    ensures Ready(b)
    ensures Picks(b, 4) == [0, 9, 1, 3]
  {
    TenLanesPicks3(b);
    TenLanesRun3(b);
    assert Picks(b, 4) == Picks(b, 3) + [3];
  }

  lemma TenLanesPicks5(b: Balance)
    requires b == Balance([0, 1, 2, 3, 4, 5, 6, 7, 8, 9], [0, 0, 0, 0, 0, 0, 0, 0, 0, 0])
    ensures Ready(b)
    ensures Picks(b, 5) == [0, 9, 1, 3, 7]
  {
    TenLanesPicks4(b);
    TenLanesRun4(b);
    assert Picks(b, 5) == Picks(b, 4) + [7];
  }

  lemma TenLanesPicks6(b: Balance)
    requires b == Balance([0, 1, 2, 3, 4, 5, 6, 7, 8, 9], [0, 0, 0, 0, 0, 0, 0, 0, 0, 0])
    ensures Ready(b)
    ensures Picks(b, 6) == [0, 9, 1, 3, 7, 8]
  {
    TenLanesPicks5(b);
    TenLanesRun5(b);
    assert Picks(b, 6) == Picks(b, 5) + [8];
  }

  lemma TenLanesPicks7(b: Balance)
    requires b == Balance([0, 1, 2, 3, 4, 5, 6, 7, 8, 9], [0, 0, 0, 0, 0, 0, 0, 0, 0, 0])
    ensures Ready(b)
    ensures Picks(b, 7) == [0, 9, 1, 3, 7, 8, 4]
  {
    TenLanesPicks6(b);
    TenLanesRun6(b);
    assert Picks(b, 7) == Picks(b, 6) + [4];
  }

  lemma TenLanesPicks8(b: Balance)
    requires b == Balance([0, 1, 2, 3, 4, 5, 6, 7, 8, 9], [0, 0, 0, 0, 0, 0, 0, 0, 0, 0])
    ensures Ready(b)
    ensures Picks(b, 8) == [0, 9, 1, 3, 7, 8, 4, 2]
  {
    TenLanesPicks7(b);
    TenLanesRun7(b);
    assert Picks(b, 8) == Picks(b, 7) + [2];
  }

  lemma TenLanesPicks9(b: Balance)
    requires b == Balance([0, 1, 2, 3, 4, 5, 6, 7, 8, 9], [0, 0, 0, 0, 0, 0, 0, 0, 0, 0])
    ensures Ready(b)
    ensures Picks(b, 9) == [0, 9, 1, 3, 7, 8, 4, 2, 5]
  {
    TenLanesPicks8(b);
    TenLanesRun8(b);
    assert Picks(b, 9) == Picks(b, 8) + [5];
  }

  lemma TenLanesPicks10(b: Balance)
    requires b == Balance([0, 1, 2, 3, 4, 5, 6, 7, 8, 9], [0, 0, 0, 0, 0, 0, 0, 0, 0, 0])
    ensures Ready(b)
    ensures Picks(b, 10) == [0, 9, 1, 3, 7, 8, 4, 2, 5, 6]
  {
    TenLanesPicks9(b);
    TenLanesRun9(b);
    assert Picks(b, 10) == Picks(b, 9) + [6];
  }

  lemma TenLanesFresh(b: Balance)
    requires b == Fresh(10)
    ensures b == Balance([0, 1, 2, 3, 4, 5, 6, 7, 8, 9], [0, 0, 0, 0, 0, 0, 0, 0, 0, 0])
  {
    assert b.queue == [0, 1, 2, 3, 4, 5, 6, 7, 8, 9];
    assert b.loads == [0, 0, 0, 0, 0, 0, 0, 0, 0, 0];
  }

  lemma TenLanesRun0(b: Balance)
    requires b == Balance([0, 1, 2, 3, 4, 5, 6, 7, 8, 9], [0, 0, 0, 0, 0, 0, 0, 0, 0, 0])
    ensures Ready(b)
    ensures EnqueueTimes(b, 0) == Balance([0, 1, 2, 3, 4, 5, 6, 7, 8, 9], [0, 0, 0, 0, 0, 0, 0, 0, 0, 0])
  {
  }

  lemma TenLanesRun1(b: Balance)
    requires b == Balance([0, 1, 2, 3, 4, 5, 6, 7, 8, 9], [0, 0, 0, 0, 0, 0, 0, 0, 0, 0])
    ensures Ready(b)
    ensures EnqueueTimes(b, 1) == Balance([9, 1, 2, 3, 4, 5, 6, 7, 8, 0], [1, 0, 0, 0, 0, 0, 0, 0, 0, 0])
  {
    TenLanesRun0(b);
    EnqueueTimesNext(b, 0);
    TenStep1();
  }

  lemma TenLanesRun2(b: Balance)
    requires b == Balance([0, 1, 2, 3, 4, 5, 6, 7, 8, 9], [0, 0, 0, 0, 0, 0, 0, 0, 0, 0])
    ensures Ready(b)
    ensures EnqueueTimes(b, 2) == Balance([1, 3, 2, 7, 4, 5, 6, 0, 8, 9], [1, 0, 0, 0, 0, 0, 0, 0, 0, 1])
  {
    TenLanesRun1(b);
    EnqueueTimesNext(b, 1);
    TenStep2();
  }

  lemma TenLanesRun3(b: Balance)
    requires b == Balance([0, 1, 2, 3, 4, 5, 6, 7, 8, 9], [0, 0, 0, 0, 0, 0, 0, 0, 0, 0])
    ensures Ready(b)
    ensures EnqueueTimes(b, 3) == Balance([3, 7, 2, 8, 4, 5, 6, 0, 9, 1], [1, 1, 0, 0, 0, 0, 0, 0, 0, 1])
  {
    TenLanesRun2(b);
    EnqueueTimesNext(b, 2);
    TenStep3();
  }

  lemma TenLanesRun4(b: Balance)
    requires b == Balance([0, 1, 2, 3, 4, 5, 6, 7, 8, 9], [0, 0, 0, 0, 0, 0, 0, 0, 0, 0])
    ensures Ready(b)
    ensures EnqueueTimes(b, 4) == Balance([7, 8, 2, 1, 4, 5, 6, 0, 9, 3], [1, 1, 0, 1, 0, 0, 0, 0, 0, 1])
  {
    TenLanesRun3(b);
    EnqueueTimesNext(b, 3);
    TenStep4();
  }

  lemma TenLanesRun5(b: Balance)
    requires b == Balance([0, 1, 2, 3, 4, 5, 6, 7, 8, 9], [0, 0, 0, 0, 0, 0, 0, 0, 0, 0])
    ensures Ready(b)
    ensures EnqueueTimes(b, 5) == Balance([8, 4, 2, 1, 3, 5, 6, 0, 9, 7], [1, 1, 0, 1, 0, 0, 0, 1, 0, 1])
  {
    TenLanesRun4(b);
    EnqueueTimesNext(b, 4);
    TenStep5();
  }

  lemma TenLanesRun6(b: Balance)
    requires b == Balance([0, 1, 2, 3, 4, 5, 6, 7, 8, 9], [0, 0, 0, 0, 0, 0, 0, 0, 0, 0])
    ensures Ready(b)
    ensures EnqueueTimes(b, 6) == Balance([4, 7, 2, 1, 3, 5, 6, 0, 9, 8], [1, 1, 0, 1, 0, 0, 0, 1, 1, 1])
  {
    TenLanesRun5(b);
    EnqueueTimesNext(b, 5);
    TenStep6();
  }

  lemma TenLanesRun7(b: Balance)
    requires b == Balance([0, 1, 2, 3, 4, 5, 6, 7, 8, 9], [0, 0, 0, 0, 0, 0, 0, 0, 0, 0])
    ensures Ready(b)
    ensures EnqueueTimes(b, 7) == Balance([2, 7, 5, 1, 3, 8, 6, 0, 9, 4], [1, 1, 0, 1, 1, 0, 0, 1, 1, 1])
  {
    TenLanesRun6(b);
    EnqueueTimesNext(b, 6);
    TenStep7();
  }

  lemma TenLanesRun8(b: Balance)
    requires b == Balance([0, 1, 2, 3, 4, 5, 6, 7, 8, 9], [0, 0, 0, 0, 0, 0, 0, 0, 0, 0])
    ensures Ready(b)
    ensures EnqueueTimes(b, 8) == Balance([5, 7, 6, 1, 3, 8, 4, 0, 9, 2], [1, 1, 1, 1, 1, 0, 0, 1, 1, 1])
  {
    TenLanesRun7(b);
    EnqueueTimesNext(b, 7);
    TenStep8();
  }

  lemma TenLanesRun9(b: Balance)
    requires b == Balance([0, 1, 2, 3, 4, 5, 6, 7, 8, 9], [0, 0, 0, 0, 0, 0, 0, 0, 0, 0])
    ensures Ready(b)
    ensures EnqueueTimes(b, 9) == Balance([6, 7, 2, 1, 3, 8, 4, 0, 9, 5], [1, 1, 1, 1, 1, 1, 0, 1, 1, 1])
  {
    TenLanesRun8(b);
    EnqueueTimesNext(b, 8);
    TenStep9();
  }

  lemma TenLanesRun10(b: Balance)
    requires b == Balance([0, 1, 2, 3, 4, 5, 6, 7, 8, 9], [0, 0, 0, 0, 0, 0, 0, 0, 0, 0])
    ensures Ready(b)
    ensures EnqueueTimes(b, 10) == Balance([5, 7, 2, 1, 3, 8, 4, 0, 9, 6], [1, 1, 1, 1, 1, 1, 1, 1, 1, 1])
  {
    TenLanesRun9(b);
    EnqueueTimesNext(b, 9);
    TenStep10();
  }

  lemma TenLanesRun11(b: Balance)
    requires b == Balance([0, 1, 2, 3, 4, 5, 6, 7, 8, 9], [0, 0, 0, 0, 0, 0, 0, 0, 0, 0])
    ensures Ready(b)
    ensures EnqueueTimes(b, 11) == Balance([6, 7, 2, 1, 3, 8, 4, 0, 9, 5], [1, 1, 1, 1, 1, 2, 1, 1, 1, 1])
  {
    TenLanesRun10(b);
    EnqueueTimesNext(b, 10);
    TenStep11();
  }

  lemma TenLanesRun12(b: Balance)
    requires b == Balance([0, 1, 2, 3, 4, 5, 6, 7, 8, 9], [0, 0, 0, 0, 0, 0, 0, 0, 0, 0])
    ensures Ready(b)
    ensures EnqueueTimes(b, 12) == Balance([7, 1, 2, 0, 3, 8, 4, 5, 9, 6], [1, 1, 1, 1, 1, 2, 2, 1, 1, 1])
  {
    TenLanesRun11(b);
    EnqueueTimesNext(b, 11);
    TenStep12();
  }

  lemma TenLanesRun13(b: Balance)
    requires b == Balance([0, 1, 2, 3, 4, 5, 6, 7, 8, 9], [0, 0, 0, 0, 0, 0, 0, 0, 0, 0])
    ensures Ready(b)
    ensures EnqueueTimes(b, 13) == Balance([1, 0, 2, 9, 3, 8, 4, 5, 6, 7], [1, 1, 1, 1, 1, 2, 2, 2, 1, 1])
  {
    TenLanesRun12(b);
    EnqueueTimesNext(b, 12);
    TenStep13();
  }

  lemma TenLanesRun14(b: Balance)
    requires b == Balance([0, 1, 2, 3, 4, 5, 6, 7, 8, 9], [0, 0, 0, 0, 0, 0, 0, 0, 0, 0])
    ensures Ready(b)
    ensures EnqueueTimes(b, 14) == Balance([0, 9, 2, 7, 3, 8, 4, 5, 6, 1], [1, 2, 1, 1, 1, 2, 2, 2, 1, 1])
  {
    TenLanesRun13(b);
    EnqueueTimesNext(b, 13);
    TenStep14();
  }

  lemma TenLanesRun15(b: Balance)
    requires b == Balance([0, 1, 2, 3, 4, 5, 6, 7, 8, 9], [0, 0, 0, 0, 0, 0, 0, 0, 0, 0])
    ensures Ready(b)
    ensures EnqueueTimes(b, 15) == Balance([9, 3, 2, 7, 1, 8, 4, 5, 6, 0], [2, 2, 1, 1, 1, 2, 2, 2, 1, 1])
  {
    TenLanesRun14(b);
    EnqueueTimesNext(b, 14);
    TenStep15();
  }

  lemma TenLanesRun16(b: Balance)
    requires b == Balance([0, 1, 2, 3, 4, 5, 6, 7, 8, 9], [0, 0, 0, 0, 0, 0, 0, 0, 0, 0])
    ensures Ready(b)
    ensures EnqueueTimes(b, 16) == Balance([3, 0, 2, 7, 1, 8, 4, 5, 6, 9], [2, 2, 1, 1, 1, 2, 2, 2, 1, 2])
  {
    TenLanesRun15(b);
    EnqueueTimesNext(b, 15);
    TenStep16();
  }

  lemma TenLanesRun17(b: Balance)
    requires b == Balance([0, 1, 2, 3, 4, 5, 6, 7, 8, 9], [0, 0, 0, 0, 0, 0, 0, 0, 0, 0])
    ensures Ready(b)
    ensures EnqueueTimes(b, 17) == Balance([2, 0, 8, 7, 1, 9, 4, 5, 6, 3], [2, 2, 1, 2, 1, 2, 2, 2, 1, 2])
  {
    TenLanesRun16(b);
    EnqueueTimesNext(b, 16);
    TenStep17();
  }

  lemma TenLanesRun18(b: Balance)
    requires b == Balance([0, 1, 2, 3, 4, 5, 6, 7, 8, 9], [0, 0, 0, 0, 0, 0, 0, 0, 0, 0])
    ensures Ready(b)
    ensures EnqueueTimes(b, 18) == Balance([8, 0, 4, 7, 1, 9, 3, 5, 6, 2], [2, 2, 2, 2, 1, 2, 2, 2, 1, 2])
  {
    TenLanesRun17(b);
    EnqueueTimesNext(b, 17);
    TenStep18();
  }

  lemma TenLanesRun19(b: Balance)
    requires b == Balance([0, 1, 2, 3, 4, 5, 6, 7, 8, 9], [0, 0, 0, 0, 0, 0, 0, 0, 0, 0])
    ensures Ready(b)
    ensures EnqueueTimes(b, 19) == Balance([4, 0, 2, 7, 1, 9, 3, 5, 6, 8], [2, 2, 2, 2, 1, 2, 2, 2, 2, 2])
  {
    TenLanesRun18(b);
    EnqueueTimesNext(b, 18);
    TenStep19();
  }

  lemma TenLanesRun20(b: Balance)
    requires b == Balance([0, 1, 2, 3, 4, 5, 6, 7, 8, 9], [0, 0, 0, 0, 0, 0, 0, 0, 0, 0])
    ensures Ready(b)
    ensures EnqueueTimes(b, 20) == Balance([8, 0, 2, 7, 1, 9, 3, 5, 6, 4], [2, 2, 2, 2, 2, 2, 2, 2, 2, 2])
  {
    TenLanesRun19(b);
    EnqueueTimesNext(b, 19);
    TenStep20();
  }

  // ---- 7 lanes ----

  lemma SevenStepSink1(loads: seq<int>)
    requires loads == [0, 0, 0, 0, 0, 0, 0]
    ensures Sink([6, 1, 2, 3, 4, 5], loads, 0) == [6, 1, 2, 3, 4, 5]
  {
    assert Sink([6, 1, 2, 3, 4, 5], loads, 0) == [6, 1, 2, 3, 4, 5];
  }

  lemma SevenStepRest1()
    ensures Rest([0, 1, 2, 3, 4, 5, 6], [0, 0, 0, 0, 0, 0, 0]) == [6, 1, 2, 3, 4, 5]
  {
    var q: seq<nat> := [0, 1, 2, 3, 4, 5, 6];
    assert [q[6]] + q[1..6] == [6, 1, 2, 3, 4, 5];
    SevenStepSink1([0, 0, 0, 0, 0, 0, 0]);
  }

  lemma SevenStep1()
    ensures EnqueueOne(Balance([0, 1, 2, 3, 4, 5, 6], [0, 0, 0, 0, 0, 0, 0])) == Balance([6, 1, 2, 3, 4, 5, 0], [1, 0, 0, 0, 0, 0, 0])
  {
    SevenStepRest1();
  }

  lemma SevenStepSink2_1(loads: seq<int>)
    requires loads == [1, 0, 0, 0, 0, 0, 0]
    ensures Sink([0, 1, 2, 3, 4, 5], loads, 0) == Sink([1, 0, 2, 3, 4, 5], loads, 1)
  {
    SinkStep([0, 1, 2, 3, 4, 5], loads, 0, 1);
    assert Swap([0, 1, 2, 3, 4, 5], 0, 1) == [1, 0, 2, 3, 4, 5];
  }

  lemma SevenStepSink2_2(loads: seq<int>)
    requires loads == [1, 0, 0, 0, 0, 0, 0]
    ensures Sink([1, 0, 2, 3, 4, 5], loads, 1) == Sink([1, 3, 2, 0, 4, 5], loads, 3)
  {
    SinkStep([1, 0, 2, 3, 4, 5], loads, 1, 3);
    assert Swap([1, 0, 2, 3, 4, 5], 1, 3) == [1, 3, 2, 0, 4, 5];
  }

  lemma SevenStepSink2(loads: seq<int>)
    requires loads == [1, 0, 0, 0, 0, 0, 0]
    ensures Sink([0, 1, 2, 3, 4, 5], loads, 0) == [1, 3, 2, 0, 4, 5]
  {
    SevenStepSink2_1(loads);
    SevenStepSink2_2(loads);
    assert Sink([1, 3, 2, 0, 4, 5], loads, 3) == [1, 3, 2, 0, 4, 5];
  }

  lemma SevenStepRest2()
    ensures Rest([6, 1, 2, 3, 4, 5, 0], [1, 0, 0, 0, 0, 0, 0]) == [1, 3, 2, 0, 4, 5]
  {
    var q: seq<nat> := [6, 1, 2, 3, 4, 5, 0];
    assert [q[6]] + q[1..6] == [0, 1, 2, 3, 4, 5];
    SevenStepSink2([1, 0, 0, 0, 0, 0, 0]);
  }

  lemma SevenStep2()
    ensures EnqueueOne(Balance([6, 1, 2, 3, 4, 5, 0], [1, 0, 0, 0, 0, 0, 0])) == Balance([1, 3, 2, 0, 4, 5, 6], [1, 0, 0, 0, 0, 0, 1])
  {
    SevenStepRest2();
  }

  lemma SevenStepSink3_1(loads: seq<int>)
    requires loads == [1, 0, 0, 0, 0, 0, 1]
    ensures Sink([6, 3, 2, 0, 4, 5], loads, 0) == Sink([3, 6, 2, 0, 4, 5], loads, 1)
  {
    SinkStep([6, 3, 2, 0, 4, 5], loads, 0, 1);
    assert Swap([6, 3, 2, 0, 4, 5], 0, 1) == [3, 6, 2, 0, 4, 5];
  }

  lemma SevenStepSink3_2(loads: seq<int>)
    requires loads == [1, 0, 0, 0, 0, 0, 1]
    ensures Sink([3, 6, 2, 0, 4, 5], loads, 1) == Sink([3, 4, 2, 0, 6, 5], loads, 4)
  {
    SinkStep([3, 6, 2, 0, 4, 5], loads, 1, 4);
    assert Swap([3, 6, 2, 0, 4, 5], 1, 4) == [3, 4, 2, 0, 6, 5];
  }

  lemma SevenStepSink3(loads: seq<int>)
    requires loads == [1, 0, 0, 0, 0, 0, 1]
    ensures Sink([6, 3, 2, 0, 4, 5], loads, 0) == [3, 4, 2, 0, 6, 5]
  {
    SevenStepSink3_1(loads);
    SevenStepSink3_2(loads);
    assert Sink([3, 4, 2, 0, 6, 5], loads, 4) == [3, 4, 2, 0, 6, 5];
  }

  lemma SevenStepRest3()
    ensures Rest([1, 3, 2, 0, 4, 5, 6], [1, 0, 0, 0, 0, 0, 1]) == [3, 4, 2, 0, 6, 5]
  {
    var q: seq<nat> := [1, 3, 2, 0, 4, 5, 6];
    assert [q[6]] + q[1..6] == [6, 3, 2, 0, 4, 5];
    SevenStepSink3([1, 0, 0, 0, 0, 0, 1]);
  }

  lemma SevenStep3()
    ensures EnqueueOne(Balance([1, 3, 2, 0, 4, 5, 6], [1, 0, 0, 0, 0, 0, 1])) == Balance([3, 4, 2, 0, 6, 5, 1], [1, 1, 0, 0, 0, 0, 1])
  {
    SevenStepRest3();
  }

  lemma SevenStepSink4_1(loads: seq<int>)
    requires loads == [1, 1, 0, 0, 0, 0, 1]
    ensures Sink([1, 4, 2, 0, 6, 5], loads, 0) == Sink([4, 1, 2, 0, 6, 5], loads, 1)
  {
    SinkStep([1, 4, 2, 0, 6, 5], loads, 0, 1);
    assert Swap([1, 4, 2, 0, 6, 5], 0, 1) == [4, 1, 2, 0, 6, 5];
  }

  lemma SevenStepSink4(loads: seq<int>)
    requires loads == [1, 1, 0, 0, 0, 0, 1]
    ensures Sink([1, 4, 2, 0, 6, 5], loads, 0) == [4, 1, 2, 0, 6, 5]
  {
    SevenStepSink4_1(loads);
    assert Sink([4, 1, 2, 0, 6, 5], loads, 1) == [4, 1, 2, 0, 6, 5];
  }

  lemma SevenStepRest4()
    ensures Rest([3, 4, 2, 0, 6, 5, 1], [1, 1, 0, 0, 0, 0, 1]) == [4, 1, 2, 0, 6, 5]
  {
    var q: seq<nat> := [3, 4, 2, 0, 6, 5, 1];
    assert [q[6]] + q[1..6] == [1, 4, 2, 0, 6, 5];
    SevenStepSink4([1, 1, 0, 0, 0, 0, 1]);
  }

  lemma SevenStep4()
    ensures EnqueueOne(Balance([3, 4, 2, 0, 6, 5, 1], [1, 1, 0, 0, 0, 0, 1])) == Balance([4, 1, 2, 0, 6, 5, 3], [1, 1, 0, 1, 0, 0, 1])
  {
    SevenStepRest4();
  }

  lemma SevenStepSink5_1(loads: seq<int>)
    requires loads == [1, 1, 0, 1, 0, 0, 1]
    ensures Sink([3, 1, 2, 0, 6, 5], loads, 0) == Sink([2, 1, 3, 0, 6, 5], loads, 2)
  {
    SinkStep([3, 1, 2, 0, 6, 5], loads, 0, 2);
    assert Swap([3, 1, 2, 0, 6, 5], 0, 2) == [2, 1, 3, 0, 6, 5];
  }

  lemma SevenStepSink5_2(loads: seq<int>)
    requires loads == [1, 1, 0, 1, 0, 0, 1]
    ensures Sink([2, 1, 3, 0, 6, 5], loads, 2) == Sink([2, 1, 5, 0, 6, 3], loads, 5)
  {
    SinkStep([2, 1, 3, 0, 6, 5], loads, 2, 5);
    assert Swap([2, 1, 3, 0, 6, 5], 2, 5) == [2, 1, 5, 0, 6, 3];
  }

  lemma SevenStepSink5(loads: seq<int>)
    requires loads == [1, 1, 0, 1, 0, 0, 1]
    ensures Sink([3, 1, 2, 0, 6, 5], loads, 0) == [2, 1, 5, 0, 6, 3]
  {
    SevenStepSink5_1(loads);
    SevenStepSink5_2(loads);
    assert Sink([2, 1, 5, 0, 6, 3], loads, 5) == [2, 1, 5, 0, 6, 3];
  }

  lemma SevenStepRest5()
    ensures Rest([4, 1, 2, 0, 6, 5, 3], [1, 1, 0, 1, 0, 0, 1]) == [2, 1, 5, 0, 6, 3]
  {
    var q: seq<nat> := [4, 1, 2, 0, 6, 5, 3];
    assert [q[6]] + q[1..6] == [3, 1, 2, 0, 6, 5];
    SevenStepSink5([1, 1, 0, 1, 0, 0, 1]);
  }

  lemma SevenStep5()
    ensures EnqueueOne(Balance([4, 1, 2, 0, 6, 5, 3], [1, 1, 0, 1, 0, 0, 1])) == Balance([2, 1, 5, 0, 6, 3, 4], [1, 1, 0, 1, 1, 0, 1])
  {
    SevenStepRest5();
  }

  lemma SevenStepSink6_1(loads: seq<int>)
    requires loads == [1, 1, 0, 1, 1, 0, 1]
    ensures Sink([4, 1, 5, 0, 6, 3], loads, 0) == Sink([5, 1, 4, 0, 6, 3], loads, 2)
  {
    SinkStep([4, 1, 5, 0, 6, 3], loads, 0, 2);
    assert Swap([4, 1, 5, 0, 6, 3], 0, 2) == [5, 1, 4, 0, 6, 3];
  }

  lemma SevenStepSink6(loads: seq<int>)
    requires loads == [1, 1, 0, 1, 1, 0, 1]
    ensures Sink([4, 1, 5, 0, 6, 3], loads, 0) == [5, 1, 4, 0, 6, 3]
  {
    SevenStepSink6_1(loads);
    assert Sink([5, 1, 4, 0, 6, 3], loads, 2) == [5, 1, 4, 0, 6, 3];
  }

  lemma SevenStepRest6()
    ensures Rest([2, 1, 5, 0, 6, 3, 4], [1, 1, 0, 1, 1, 0, 1]) == [5, 1, 4, 0, 6, 3]
  {
    var q: seq<nat> := [2, 1, 5, 0, 6, 3, 4];
    assert [q[6]] + q[1..6] == [4, 1, 5, 0, 6, 3];
    SevenStepSink6([1, 1, 0, 1, 1, 0, 1]);
  }

  lemma SevenStep6()
    ensures EnqueueOne(Balance([2, 1, 5, 0, 6, 3, 4], [1, 1, 0, 1, 1, 0, 1])) == Balance([5, 1, 4, 0, 6, 3, 2], [1, 1, 1, 1, 1, 0, 1])
  {
    SevenStepRest6();
  }

  lemma SevenStepSink7(loads: seq<int>)
    requires loads == [1, 1, 1, 1, 1, 0, 1]
    ensures Sink([2, 1, 4, 0, 6, 3], loads, 0) == [2, 1, 4, 0, 6, 3]
  {
    assert Sink([2, 1, 4, 0, 6, 3], loads, 0) == [2, 1, 4, 0, 6, 3];
  }

  lemma SevenStepRest7()
    ensures Rest([5, 1, 4, 0, 6, 3, 2], [1, 1, 1, 1, 1, 0, 1]) == [2, 1, 4, 0, 6, 3]
  {
    var q: seq<nat> := [5, 1, 4, 0, 6, 3, 2];
    assert [q[6]] + q[1..6] == [2, 1, 4, 0, 6, 3];
    SevenStepSink7([1, 1, 1, 1, 1, 0, 1]);
  }

  lemma SevenStep7()
    ensures EnqueueOne(Balance([5, 1, 4, 0, 6, 3, 2], [1, 1, 1, 1, 1, 0, 1])) == Balance([2, 1, 4, 0, 6, 3, 5], [1, 1, 1, 1, 1, 1, 1])
  {
    SevenStepRest7();
  }

  lemma SevenLanesFresh(b: Balance)
    requires b == Fresh(7)
    ensures b == Balance([0, 1, 2, 3, 4, 5, 6], [0, 0, 0, 0, 0, 0, 0])
  {
    assert b.queue == [0, 1, 2, 3, 4, 5, 6];
    assert b.loads == [0, 0, 0, 0, 0, 0, 0];
  }

  lemma SevenLanesRun0(b: Balance)
    requires b == Balance([0, 1, 2, 3, 4, 5, 6], [0, 0, 0, 0, 0, 0, 0])
    ensures Ready(b)
    ensures EnqueueTimes(b, 0) == Balance([0, 1, 2, 3, 4, 5, 6], [0, 0, 0, 0, 0, 0, 0])
  {
  }

  lemma SevenLanesRun1(b: Balance)
    requires b == Balance([0, 1, 2, 3, 4, 5, 6], [0, 0, 0, 0, 0, 0, 0])
    ensures Ready(b)
    ensures EnqueueTimes(b, 1) == Balance([6, 1, 2, 3, 4, 5, 0], [1, 0, 0, 0, 0, 0, 0])
  {
    SevenLanesRun0(b);
    EnqueueTimesNext(b, 0);
    SevenStep1();
  }

  lemma SevenLanesRun2(b: Balance)
    requires b == Balance([0, 1, 2, 3, 4, 5, 6], [0, 0, 0, 0, 0, 0, 0])
    ensures Ready(b)
    ensures EnqueueTimes(b, 2) == Balance([1, 3, 2, 0, 4, 5, 6], [1, 0, 0, 0, 0, 0, 1])
  {
    SevenLanesRun1(b);
    EnqueueTimesNext(b, 1);
    SevenStep2();
  }

  lemma SevenLanesRun3(b: Balance)
    requires b == Balance([0, 1, 2, 3, 4, 5, 6], [0, 0, 0, 0, 0, 0, 0])
    ensures Ready(b)
    ensures EnqueueTimes(b, 3) == Balance([3, 4, 2, 0, 6, 5, 1], [1, 1, 0, 0, 0, 0, 1])
  {
    SevenLanesRun2(b);
    EnqueueTimesNext(b, 2);
    SevenStep3();
  }

  lemma SevenLanesRun4(b: Balance)
    requires b == Balance([0, 1, 2, 3, 4, 5, 6], [0, 0, 0, 0, 0, 0, 0])
    ensures Ready(b)
    ensures EnqueueTimes(b, 4) == Balance([4, 1, 2, 0, 6, 5, 3], [1, 1, 0, 1, 0, 0, 1])
  {
    SevenLanesRun3(b);
    EnqueueTimesNext(b, 3);
    SevenStep4();
  }

  lemma SevenLanesRun5(b: Balance)
    requires b == Balance([0, 1, 2, 3, 4, 5, 6], [0, 0, 0, 0, 0, 0, 0])
    ensures Ready(b)
    ensures EnqueueTimes(b, 5) == Balance([2, 1, 5, 0, 6, 3, 4], [1, 1, 0, 1, 1, 0, 1])
  {
    SevenLanesRun4(b);
    EnqueueTimesNext(b, 4);
    SevenStep5();
  }

  lemma SevenLanesRun6(b: Balance)
    requires b == Balance([0, 1, 2, 3, 4, 5, 6], [0, 0, 0, 0, 0, 0, 0])
    ensures Ready(b)
    ensures EnqueueTimes(b, 6) == Balance([5, 1, 4, 0, 6, 3, 2], [1, 1, 1, 1, 1, 0, 1])
  {
    SevenLanesRun5(b);
    EnqueueTimesNext(b, 5);
    SevenStep6();
  }

  lemma SevenLanesRun7(b: Balance)
    requires b == Balance([0, 1, 2, 3, 4, 5, 6], [0, 0, 0, 0, 0, 0, 0])
    ensures Ready(b)
    ensures EnqueueTimes(b, 7) == Balance([2, 1, 4, 0, 6, 3, 5], [1, 1, 1, 1, 1, 1, 1])
  {
    SevenLanesRun6(b);
    EnqueueTimesNext(b, 6);
    SevenStep7();
  }

  /** The run of `tests/load-balancer.js`: twenty tasks scheduled back to
      back on ten fresh lanes. The first ten go to lanes 0, 9, 1, 3, 7, 8, 4,
      2, 5, 6 (after lane 0 the last descriptor, moved to the root by the
      poll, is taken next, since ties are not broken by index), and every
      lane ends up with exactly two tasks. */
  lemma TenLanesTwentyTasks(b: Balance)
    requires b == Fresh(10)
    ensures Ready(b)
    ensures Picks(b, 10) == [0, 9, 1, 3, 7, 8, 4, 2, 5, 6]
    ensures EnqueueTimes(b, 20).loads == [2, 2, 2, 2, 2, 2, 2, 2, 2, 2]
  {
    TenLanesFresh(b);
    TenLanesPicks10(b);
    TenLanesRun20(b);
  }

  /** The heap of `RootResiftMissesSettledLane`: seven enqueues on seven
      fresh lanes put one task on every lane and leave the heap as
      `[2, 1, 4, 0, 6, 3, 5]`. */
  lemma SevenLanesHeap(b: Balance)
    requires b == Fresh(7)
    ensures Ready(b)
    ensures EnqueueTimes(b, 7) == Balance([2, 1, 4, 0, 6, 3, 5], [1, 1, 1, 1, 1, 1, 1])
  {
    SevenLanesFresh(b);
    SevenLanesRun7(b);
  }
}
