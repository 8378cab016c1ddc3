/** The forward-only pipeline wavefront against plain composition of the stages. */
module Pipeline {
  import opened Options

  /** The first k stages applied to x. */
  function Apply<X>(fns: seq<X -> X>, k: nat, x: X): X
    requires k <= |fns|
  {
    if k == 0 then x else fns[k - 1](Apply(fns, k - 1, x))
  }

  datatype Slot = Slot(t: nat, stage: nat, micro: nat)

  /** How many stages micro-batch i has been through when time t has reached stage s. */
  function Passed(p: nat, i: nat, t: nat, s: nat): nat {
    var k := if t < i then 0 else t - i + if t - i < s then 1 else 0;
    if k < p then k else p
  }

  /** How many micro-batches stage a has processed by then. */
  function Busy(m: nat, a: nat, t: nat, s: nat): nat {
    var k := if t < a then 0 else t - a + if a < s then 1 else 0;
    if k < m then k else m
  }

  function Sum(counts: seq<nat>): nat {
    if counts == [] then 0 else Sum(counts[..|counts| - 1]) + counts[|counts| - 1]
  }

  lemma {:induction false} SumUpdate(counts: seq<nat>, i: nat)
    requires i < |counts|
    ensures Sum(counts[i := counts[i] + 1]) == Sum(counts) + 1
    decreases |counts|
  {
    var last := |counts| - 1;
    if i < last {
      SumUpdate(counts[..last], i);
      assert counts[i := counts[i] + 1][..last] == counts[..last][i := counts[i] + 1];
    } else {
      assert counts[i := counts[i] + 1][..last] == counts[..last];
    }
  }

  lemma {:induction false} SumConstant(counts: seq<nat>, m: nat)
    requires forall a :: 0 <= a < |counts| ==> counts[a] == m
    ensures Sum(counts) == |counts| * m
    decreases |counts|
  {
    if counts != [] {
      SumConstant(counts[..|counts| - 1], m);
      assert |counts| * m == (|counts| - 1) * m + m;
    }
  }

  /** The one moment stage a can process micro-batch i. */
  function At(a: nat, i: nat): Slot { Slot(a + i, a, i) }

  predicate Before(a: Slot, b: Slot) { a.t < b.t || (a.t == b.t && a.stage < b.stage) }

  /** The occupancy recorded up to time t, stage s. */
  ghost predicate Recorded(p: nat, m: nat, timeline: seq<Slot>, t: nat, s: nat) {
    && (forall e :: e in timeline ==> e.t == e.stage + e.micro && e.stage < p && e.micro < m)
    && (forall e :: e in timeline ==> e.t < t || (e.t == t && e.stage < s))
    && (forall a, b :: 0 <= a < b < |timeline| ==> Before(timeline[a], timeline[b]))
    && (forall a: nat, i: nat :: a < p && i < m && a < Passed(p, i, t, s) ==> At(a, i) in timeline)
  }

  /** Each micro-batch waits in front of the next stage it needs, with the right activation. */
  ghost predicate Waiting<X(!new)>(fns: seq<X -> X>, micro: seq<X>, buffers: map<(nat, nat), X>,
                            outputs: seq<Option<X>>, t: nat, s: nat) {
    var p, m := |fns|, |micro|;
    && |outputs| == m
    && (forall a: nat, i: nat :: (a, i) in buffers <==> i < m && a < p && a == Passed(p, i, t, s))
    && (forall a: nat, i: nat :: (a, i) in buffers ==> a <= p && i < m && buffers[(a, i)] == Apply(fns, a, micro[i]))
    && (forall i :: 0 <= i < m ==>
          outputs[i] == if Passed(p, i, t, s) == p then Some(Apply(fns, p, micro[i])) else None)
  }

  lemma PassedSteps(p: nat, i: nat, t: nat, s: nat)
    requires s < p
    ensures i + s == t ==> Passed(p, i, t, s) == s && Passed(p, i, t, s + 1) == s + 1
    ensures i + s != t ==> Passed(p, i, t, s + 1) == Passed(p, i, t, s)
    ensures Passed(p, i, t, p) == Passed(p, i, t + 1, 0)
  {
  }

  lemma BusySteps(p: nat, m: nat, a: nat, t: nat, s: nat)
    requires s < p && a < p
    ensures a == s && s <= t && t - s < m ==> Busy(m, a, t, s + 1) == Busy(m, a, t, s) + 1
    ensures a != s || t < s || t - s >= m ==> Busy(m, a, t, s + 1) == Busy(m, a, t, s)
    ensures Busy(m, a, t, p) == Busy(m, a, t + 1, 0)
  {
  }

  /** Processing micro-batch t - s at stage s. */
  lemma WaitingStep<X(!new)>(fns: seq<X -> X>, micro: seq<X>, b: map<(nat, nat), X>, o: seq<Option<X>>,
                             b': map<(nat, nat), X>, o': seq<Option<X>>, t: nat, s: nat, i: nat, y: X)
    requires Waiting(fns, micro, b, o, t, s) && s < |fns| && i + s == t && i < |micro| && (s, i) in b
    requires y == fns[s](b[(s, i)])
    requires b' == if s + 1 < |fns| then (b - {(s, i)})[(s + 1, i) := y] else b - {(s, i)}
    requires o' == if s + 1 < |fns| then o else o[i := Some(y)]
    ensures Waiting(fns, micro, b', o', t, s + 1)
  {
    var p := |fns|;
    forall j: nat
      ensures j == i ==> Passed(p, j, t, s) == s && Passed(p, j, t, s + 1) == s + 1
      ensures j != i ==> Passed(p, j, t, s + 1) == Passed(p, j, t, s)
    {
      PassedSteps(p, j, t, s);
    }
    hide Passed;
    assert y == Apply(fns, s + 1, micro[i]);
  }

  lemma WaitingSkip<X(!new)>(fns: seq<X -> X>, micro: seq<X>, b: map<(nat, nat), X>, o: seq<Option<X>>, t: nat, s: nat)
    requires Waiting(fns, micro, b, o, t, s) && s < |fns| && !(0 <= t - s < |micro|)
    ensures Waiting(fns, micro, b, o, t, s + 1)
  {
    forall j: nat | j < |micro|
      ensures Passed(|fns|, j, t, s + 1) == Passed(|fns|, j, t, s)
    {
      PassedSteps(|fns|, j, t, s);
    }
    hide Passed, Apply;
  }

  lemma RecordedStep(p: nat, m: nat, timeline: seq<Slot>, t: nat, s: nat, i: nat)
    requires Recorded(p, m, timeline, t, s) && s < p && i + s == t && i < m
    ensures Recorded(p, m, timeline + [Slot(t, s, i)], t, s + 1)
  {
    forall j: nat
      ensures j == i ==> Passed(p, j, t, s + 1) == s + 1 && Passed(p, j, t, s) == s
      ensures j != i ==> Passed(p, j, t, s + 1) == Passed(p, j, t, s)
    {
      PassedSteps(p, j, t, s);
    }
    hide Passed;
    var after := timeline + [Slot(t, s, i)];
    forall a: nat, j: nat | a < p && j < m && a < Passed(p, j, t, s + 1)
      ensures At(a, j) in after
    {
      if j == i && a == s {
        assert after[|timeline|] == At(a, j);
      } else {
        assert At(a, j) in timeline;
      }
    }
  }

  lemma RecordedSkip(p: nat, m: nat, timeline: seq<Slot>, t: nat, s: nat)
    requires Recorded(p, m, timeline, t, s) && s < p && !(0 <= t - s < m)
    ensures Recorded(p, m, timeline, t, s + 1)
  {
    forall j: nat | j < m
      ensures Passed(p, j, t, s + 1) == Passed(p, j, t, s)
    {
      PassedSteps(p, j, t, s);
    }
    hide Passed;
  }

  lemma NextTime<X(!new)>(fns: seq<X -> X>, micro: seq<X>, b: map<(nat, nat), X>, o: seq<Option<X>>,
                   timeline: seq<Slot>, t: nat)
    requires Waiting(fns, micro, b, o, t, |fns|) && Recorded(|fns|, |micro|, timeline, t, |fns|) && fns != []
    ensures Waiting(fns, micro, b, o, t + 1, 0) && Recorded(|fns|, |micro|, timeline, t + 1, 0)
  {
    forall j: nat
      ensures Passed(|fns|, j, t, |fns|) == Passed(|fns|, j, t + 1, 0)
    {
      PassedSteps(|fns|, j, t, |fns| - 1);
    }
    hide Passed, Apply;
  }

  lemma AllPassed(p: nat, m: nat, n: nat)
    requires p > 0 && n == m + p - 1
    ensures forall i :: 0 <= i < m ==> Passed(p, i, n, 0) == p
    ensures forall a :: 0 <= a < p ==> Busy(m, a, n, 0) == m
  {
  }

  lemma Started<X(!new)>(fns: seq<X -> X>, micro: seq<X>, b: map<(nat, nat), X>, o: seq<Option<X>>)
    requires fns != [] && b == (map i: nat | i < |micro| :: (0, i) := micro[i]) && o == seq(|micro|, _ => None)
    ensures Waiting(fns, micro, b, o, 0, 0) && Recorded(|fns|, |micro|, [], 0, 0)
    ensures forall a :: 0 <= a < |fns| ==> Busy(|micro|, a, 0, 0) == 0
  {
  }

  /** The buffer the wavefront pops is there. */
  lemma Ready<X(!new)>(fns: seq<X -> X>, micro: seq<X>, b: map<(nat, nat), X>, o: seq<Option<X>>, t: nat, s: nat,
                i: nat)
    requires Waiting(fns, micro, b, o, t, s) && s < |fns| && i + s == t && i < |micro|
    ensures (s, i) in b && |o| == |micro|
  {
    PassedSteps(|fns|, i, t, s);
    hide Passed, Apply;
  }

  lemma Finished<X(!new)>(fns: seq<X -> X>, micro: seq<X>, b: map<(nat, nat), X>, o: seq<Option<X>>,
                   timeline: seq<Slot>, n: nat)
    requires fns != [] && n == |micro| + |fns| - 1
    requires Waiting(fns, micro, b, o, n, 0) && Recorded(|fns|, |micro|, timeline, n, 0)
    ensures |o| == |micro| && forall i :: 0 <= i < |micro| ==> o[i] == Some(Apply(fns, |fns|, micro[i]))
    ensures forall a: nat, i: nat :: (a, i) !in b
    ensures forall e :: e in timeline <==> e.t == e.stage + e.micro && e.stage < |fns| && e.micro < |micro|
    ensures forall a, b :: 0 <= a < b < |timeline| ==> Before(timeline[a], timeline[b])
  {
    AllPassed(|fns|, |micro|, n);
    hide Passed, Apply;
    forall e: Slot | e.t == e.stage + e.micro && e.stage < |fns| && e.micro < |micro|
      ensures e in timeline
    {
      assert e == At(e.stage, e.micro);
    }
  }

  function Values<X>(o: seq<Option<X>>): seq<X>
    requires forall i :: 0 <= i < |o| ==> o[i].Some?
  {
    seq(|o|, i requires 0 <= i < |o| => o[i].value)
  }

  /**
   A complete run: output i is all stages composed on input i; every (stage,
   micro-batch) ran exactly once, at its time and in order.
   */
  ghost predicate Complete<X(!new)>(fns: seq<X -> X>, micro: seq<X>, outs: seq<X>, timeline: seq<Slot>) {
    var p, m := |fns|, |micro|;
    && |outs| == m
    && (forall i :: 0 <= i < m ==> outs[i] == Apply(fns, p, micro[i]))
    && (forall e :: e in timeline <==> e.t == e.stage + e.micro && e.stage < p && e.micro < m)
    && (forall a, b :: 0 <= a < b < |timeline| ==> Before(timeline[a], timeline[b]))
    && |timeline| == p * m
  }

  function FirstBuffers<X>(micro: seq<X>): map<(nat, nat), X> { map i: nat | i < |micro| :: (0, i) := micro[i] }

  function NotBusy(p: nat): seq<nat> { seq(p, _ => 0) }

  function NoOutputs<X>(m: nat): seq<Option<X>> { seq(m, _ => None) }

  /** The whole state of the wavefront when time t has reached stage s. */
  ghost predicate Going<X(!new)>(fns: seq<X -> X>, micro: seq<X>, buffers: map<(nat, nat), X>, outputs: seq<Option<X>>,
                                 timeline: seq<Slot>, busy: seq<nat>, t: nat, s: nat) {
    && Waiting(fns, micro, buffers, outputs, t, s)
    && Recorded(|fns|, |micro|, timeline, t, s)
    && |busy| == |fns| && |timeline| == Sum(busy)
    && forall a :: 0 <= a < |fns| ==> busy[a] == Busy(|micro|, a, t, s)
  }

  lemma GoStart<X(!new)>(fns: seq<X -> X>, micro: seq<X>, b: map<(nat, nat), X>, o: seq<Option<X>>, busy: seq<nat>)
    requires fns != [] && b == FirstBuffers(micro) && o == NoOutputs(|micro|) && busy == NotBusy(|fns|)
    ensures Going(fns, micro, b, o, [], busy, 0, 0)
  {
    Started(fns, micro, b, o);
    SumConstant(busy, 0);
    hide Waiting, Recorded, Sum, Busy;
  }

  lemma GoReady<X(!new)>(fns: seq<X -> X>, micro: seq<X>, b: map<(nat, nat), X>, o: seq<Option<X>>, timeline: seq<Slot>,
                         busy: seq<nat>, t: nat, s: nat, i: nat)
    requires Going(fns, micro, b, o, timeline, busy, t, s) && s < |fns| && i + s == t && i < |micro|
    ensures (s, i) in b && |o| == |micro| && |busy| == |fns|
  {
    Ready(fns, micro, b, o, t, s, i);
    hide Waiting, Recorded, Sum, Busy;
  }

  lemma GoStep<X(!new)>(fns: seq<X -> X>, micro: seq<X>, b: map<(nat, nat), X>, o: seq<Option<X>>,
                 timeline: seq<Slot>, busy: seq<nat>, b': map<(nat, nat), X>, o': seq<Option<X>>, t: nat, s: nat,
                 i: nat, y: X)
    requires Going(fns, micro, b, o, timeline, busy, t, s) && s < |fns| && i + s == t && i < |micro| && (s, i) in b
    requires y == fns[s](b[(s, i)]) && |busy| == |fns|
    requires b' == if s + 1 < |fns| then (b - {(s, i)})[(s + 1, i) := y] else b - {(s, i)}
    requires |o| == |micro| && o' == if s + 1 < |fns| then o else o[i := Some(y)]
    ensures Going(fns, micro, b', o', timeline + [Slot(t, s, i)], busy[s := busy[s] + 1], t, s + 1)
  {
    WaitingStep(fns, micro, b, o, b', o', t, s, i, y);
    RecordedStep(|fns|, |micro|, timeline, t, s, i);
    SumUpdate(busy, s);
    BusyStep(fns, micro, busy, busy[s := busy[s] + 1], t, s);
    hide Waiting, Recorded, Sum, Busy;
  }

  lemma BusyStep<X>(fns: seq<X -> X>, micro: seq<X>, busy: seq<nat>, after: seq<nat>, t: nat, s: nat)
    requires s < |fns| == |busy| && s <= t && t - s < |micro|
    requires forall a :: 0 <= a < |fns| ==> busy[a] == Busy(|micro|, a, t, s)
    requires after == busy[s := busy[s] + 1]
    ensures forall a :: 0 <= a < |fns| ==> after[a] == Busy(|micro|, a, t, s + 1)
  {
    forall a | 0 <= a < |fns|
      ensures after[a] == Busy(|micro|, a, t, s + 1)
    {
      BusySteps(|fns|, |micro|, a, t, s);
    }
  }

  lemma GoSkip<X(!new)>(fns: seq<X -> X>, micro: seq<X>, b: map<(nat, nat), X>, o: seq<Option<X>>, timeline: seq<Slot>,
                        busy: seq<nat>, t: nat, s: nat)
    requires Going(fns, micro, b, o, timeline, busy, t, s) && s < |fns| && !(0 <= t - s < |micro|)
    ensures Going(fns, micro, b, o, timeline, busy, t, s + 1)
  {
    WaitingSkip(fns, micro, b, o, t, s);
    RecordedSkip(|fns|, |micro|, timeline, t, s);
    hide Waiting, Recorded, Sum;
    forall a | 0 <= a < |fns|
      ensures busy[a] == Busy(|micro|, a, t, s + 1)
    {
      BusySteps(|fns|, |micro|, a, t, s);
    }
  }

  lemma GoNext<X(!new)>(fns: seq<X -> X>, micro: seq<X>, b: map<(nat, nat), X>, o: seq<Option<X>>, timeline: seq<Slot>,
                        busy: seq<nat>, t: nat)
    requires fns != [] && Going(fns, micro, b, o, timeline, busy, t, |fns|)
    ensures Going(fns, micro, b, o, timeline, busy, t + 1, 0)
  {
    NextTime(fns, micro, b, o, timeline, t);
    hide Waiting, Recorded, Sum;
    forall a | 0 <= a < |fns|
      ensures busy[a] == Busy(|micro|, a, t + 1, 0)
    {
      BusySteps(|fns|, |micro|, a, t, |fns| - 1);
    }
  }

  lemma GoEnd<X(!new)>(fns: seq<X -> X>, micro: seq<X>, b: map<(nat, nat), X>, o: seq<Option<X>>, timeline: seq<Slot>,
                       busy: seq<nat>, n: nat)
    requires fns != [] && n == |micro| + |fns| - 1 && Going(fns, micro, b, o, timeline, busy, n, 0)
    ensures forall i :: 0 <= i < |o| ==> o[i].Some?
    ensures forall a: nat, i: nat :: (a, i) !in b
    ensures Complete(fns, micro, Values(o), timeline)
    ensures |busy| == |fns| && forall a :: 0 <= a < |busy| ==> busy[a] == |micro|
  {
    Finished(fns, micro, b, o, timeline, n);
    AllPassed(|fns|, |micro|, n);
    hide Waiting, Recorded, Passed, Apply, Busy;
    SumConstant(busy, |micro|);
  }

  /** Stage by stage, what was counted before a run and what the run has counted. */
  function Added(before: seq<nat>, counts: seq<nat>): (sum: seq<nat>)
    requires |counts| == |before|
    ensures |sum| == |before| && forall a :: 0 <= a < |before| ==> sum[a] == before[a] + counts[a]
  {
    seq(|before|, a requires 0 <= a < |before| => before[a] + counts[a])
  }

  lemma AddedStep(before: seq<nat>, counts: seq<nat>, s: nat)
    requires |counts| == |before| && s < |before|
    ensures Added(before, counts)[s := Added(before, counts)[s] + 1] == Added(before, counts[s := counts[s] + 1])
  {
  }

  lemma AddedNothing(before: seq<nat>)
    ensures Added(before, NotBusy(|before|)) == before
  {
  }

  lemma GoSize<X(!new)>(fns: seq<X -> X>, micro: seq<X>, b: map<(nat, nat), X>, o: seq<Option<X>>, timeline: seq<Slot>,
                        busy: seq<nat>, t: nat, s: nat)
    requires Going(fns, micro, b, o, timeline, busy, t, s)
    ensures |busy| == |fns|
  {
    hide Waiting, Recorded, Sum, Busy;
  }

  class PipelineSchedule<X(!new)> {
    const fns: seq<X -> X>
    const numMicroBatches: nat
    var timeline: seq<Slot>
    var busySteps: seq<nat>  // per stage, over all runs

    ghost predicate Valid()
      reads this
    {
      fns != [] && |busySteps| == |fns|
    }

    constructor (stages: seq<X -> X>, m: nat)
      requires stages != []
      ensures Valid() && fns == stages && numMicroBatches == m && timeline == [] && busySteps == NotBusy(|stages|)
    {
      fns, numMicroBatches := stages, m;
      timeline := [];
      busySteps := NotBusy(|stages|);
    }

    /**
     Run the wavefront. Every buffer asked for is there, none is left over, every
     (stage, micro-batch) runs exactly once and in order, output i is all stages
     composed on input i, and the bubble measured afterwards is (p - 1) / (m + p - 1).
     */
    method Run(micro: seq<X>) returns (outs: Option<seq<X>>)
      requires Valid()
      modifies this
      ensures Valid()
      ensures outs.Some? <==> |micro| == numMicroBatches
      ensures outs.None? ==> timeline == old(timeline) && busySteps == old(busySteps)
      ensures outs.Some? ==> Complete(fns, micro, outs.value, timeline)
      ensures outs.Some? ==> forall a :: 0 <= a < |fns| ==> busySteps[a] == old(busySteps)[a] + numMicroBatches
      ensures outs.Some? && |fns| + numMicroBatches > 1 ==>
        MeasuredBubble() == (|fns| - 1) as real / (numMicroBatches + |fns| - 1) as real
    {
      if |micro| != numMicroBatches {
        return None;
      }
      var p, m := |fns|, numMicroBatches;
      ghost var before, counts := busySteps, NotBusy(p);
      hide *;
      var buffers: map<(nat, nat), X> := FirstBuffers(micro);
      var outputs: seq<Option<X>> := NoOutputs(m);
      timeline := [];
      AddedNothing(before);
      GoStart(fns, micro, buffers, outputs, counts);
      GoSize(fns, micro, buffers, outputs, timeline, counts, 0, 0);
      var t := 0;
      while t < m + p - 1
        invariant t <= m + p - 1 && Going(fns, micro, buffers, outputs, timeline, counts, t, 0)
        invariant |counts| == |before| && busySteps == Added(before, counts)
      {
        buffers, outputs, counts := Slots(micro, buffers, outputs, t, before, counts);
        t := t + 1;
      }
      GoEnd(fns, micro, buffers, outputs, timeline, counts, t);
      assert forall a: nat, i: nat :: (a, i) !in buffers;
      outs := Some(Values(outputs));
      CompleteSize(fns, micro, outs.value, timeline);
      MeasuredIs();
      if p + m > 1 {
        BubbleFormula(p, m, |timeline|);
      }
    }

    /**
     One time slot: stage s takes micro-batch t - s if there is one. `counts` is what this run has
     added to the counters.
     */
    method Slots(micro: seq<X>, buffersIn: map<(nat, nat), X>, outputsIn: seq<Option<X>>, t: nat,
                 ghost before: seq<nat>, ghost countsIn: seq<nat>)
      returns (buffers: map<(nat, nat), X>, outputs: seq<Option<X>>, ghost counts: seq<nat>)
      requires fns != [] && |micro| == numMicroBatches
      requires |countsIn| == |before| == |fns| && busySteps == Added(before, countsIn)
      requires Going(fns, micro, buffersIn, outputsIn, timeline, countsIn, t, 0)
      modifies this
      ensures Going(fns, micro, buffers, outputs, timeline, counts, t + 1, 0)
      ensures |counts| == |before| && busySteps == Added(before, counts)
    {
      hide *;
      buffers, outputs, counts := buffersIn, outputsIn, countsIn;
      var s := 0;
      while s < |fns|
        invariant s <= |fns| && Going(fns, micro, buffers, outputs, timeline, counts, t, s)
        invariant |counts| == |before| && busySteps == Added(before, counts)
      {
        if 0 <= t - s < |micro| {
          var i: nat := t - s;
          GoReady(fns, micro, buffers, outputs, timeline, counts, t, s, i);
          ghost var b0, o0, l0, c0 := buffers, outputs, timeline, counts;
          var x := buffers[(s, i)];
          buffers := buffers - {(s, i)};
          var y := fns[s](x);
          AddedStep(before, counts, s);
          busySteps := busySteps[s := busySteps[s] + 1];
          counts := counts[s := counts[s] + 1];
          timeline := timeline + [Slot(t, s, i)];
          if s + 1 < |fns| {
            buffers := buffers[(s + 1, i) := y];
          } else {
            outputs := outputs[i := Some(y)];
          }
          GoStep(fns, micro, b0, o0, l0, c0, buffers, outputs, t, s, i, y);
        } else {
          GoSkip(fns, micro, buffers, outputs, timeline, counts, t, s);
        }
        s := s + 1;
      }
      GoNext(fns, micro, buffers, outputs, timeline, counts, t);
    }

    /** 1 - busy slots / all slots of the last run. */
    function MeasuredBubble(): real
      reads this
    {
      var total := |fns| * (numMicroBatches + |fns| - 1);
      if total == 0 then 0.0 else 1.0 - (|timeline| as real / total as real)
    }

    lemma MeasuredIs()
      ensures var total := |fns| * (numMicroBatches + |fns| - 1);
        MeasuredBubble() == if total == 0 then 0.0 else 1.0 - (|timeline| as real / total as real)
    {
    }
  }

  lemma CompleteSize<X(!new)>(fns: seq<X -> X>, micro: seq<X>, outs: seq<X>, timeline: seq<Slot>)
    requires Complete(fns, micro, outs, timeline)
    ensures |timeline| == |fns| * |micro|
  {
    hide Apply;
  }

  /** The bubble measured after a run is the formula, exactly. */
  lemma BubbleFormula(p: nat, m: nat, busy: nat)
    requires p > 0 && m + p - 1 > 0 && busy == p * m
    ensures p * (m + p - 1) != 0
    ensures 1.0 - busy as real / (p * (m + p - 1)) as real == (p - 1) as real / (m + p - 1) as real
  {
    var n := m + p - 1;
    assert p * n > 0;
    var P, M, N := p as real, m as real, n as real;
    CastProduct(p, n);
    CastProduct(p, m);
    assert (p - 1) as real == N - M;
    Bubble(P, M, N);
    var q, total := (P * M) / (P * N), p * n;
    assert busy as real / total as real == q;
    assert 1.0 - q == (N - M) / N;
  }

  lemma CastProduct(a: nat, b: nat)
    ensures (a * b) as real == a as real * b as real
  {
  }

  lemma Bubble(p: real, m: real, n: real)
    requires p > 0.0 && n > 0.0
    ensures p * n != 0.0 && 1.0 - (p * m) / (p * n) == (n - m) / n
  {
    var q := m / n;
    assert q * n == m;
    Same(q, p * n, p * m) by { assert q * (p * n) == p * (q * n); }
    Same(1.0 - q, n, n - m) by { assert (1.0 - q) * n == n - q * n; }
  }

  lemma Same(q: real, d: real, a: real)
    requires d != 0.0 && q * d == a
    ensures a / d == q
  {
  }

  // ---- assigning layers to stages

  function Range(from: nat, count: nat): (r: seq<nat>)
    ensures |r| == count && forall i :: 0 <= i < count ==> r[i] == from + i
  {
    seq(count, i requires 0 <= i < count => from + i)
  }

  function Flatten(parts: seq<seq<nat>>): seq<nat> {
    if parts == [] then [] else Flatten(parts[..|parts| - 1]) + parts[|parts| - 1]
  }

  /** The first layer of stage s. */
  function FirstLayer(numLayers: nat, numStages: nat, s: nat): nat
    requires numStages > 0
  {
    s * (numLayers / numStages) + if s < numLayers % numStages then s else numLayers % numStages
  }

  function TakeOf(numLayers: nat, numStages: nat, s: nat): nat
    requires numStages > 0
  {
    numLayers / numStages + if s < numLayers % numStages then 1 else 0
  }

  lemma NextLayers(numLayers: nat, numStages: nat, s: nat)
    requires numStages > 0
    ensures FirstLayer(numLayers, numStages, 0) == 0 && FirstLayer(numLayers, numStages, numStages) == numLayers
    ensures FirstLayer(numLayers, numStages, s + 1) ==
      FirstLayer(numLayers, numStages, s) + TakeOf(numLayers, numStages, s)
  {
    var base := numLayers / numStages;
    assert (s + 1) * base == s * base + base;
    assert numStages * base + numLayers % numStages == numLayers;
  }

  lemma TakeMore(parts: seq<seq<nat>>, start: nat, take: nat)
    requires Flatten(parts) == Range(0, start)
    ensures Flatten(parts + [Range(start, take)]) == Range(0, start + take)
  {
    assert (parts + [Range(start, take)])[..|parts|] == parts;
    assert Range(0, start) + Range(start, take) == Range(0, start + take);
  }

  lemma NoLayers()
    ensures Flatten([]) == Range(0, 0)
  {
  }

  /** No part is larger than one before it, or smaller by more than one. */
  ghost predicate Balanced<T>(parts: seq<seq<T>>) {
    forall s, t :: 0 <= s <= t < |parts| ==> |parts[t]| <= |parts[s]| <= |parts[t]| + 1
  }

  /** Contiguous and balanced: the parts are the layers in order, and no two differ by more than one. */
  method SplitLayers(numLayers: nat, numStages: nat) returns (out: Option<seq<seq<nat>>>)
    requires numStages > 0
    ensures out.Some? <==> numStages <= numLayers
    ensures out.Some? ==>
      && |out.value| == numStages
      && Flatten(out.value) == Range(0, numLayers)
      && forall s :: 0 <= s < numStages ==>
           out.value[s] == Range(FirstLayer(numLayers, numStages, s), TakeOf(numLayers, numStages, s))
    ensures out.Some? ==> Balanced(out.value)
  {
    if numStages > numLayers {
      return None;
    }
    hide FirstLayer, Flatten, Range;
    var base, extra := numLayers / numStages, numLayers % numStages;
    var parts: seq<seq<nat>>, start, s := [], 0, 0;
    NextLayers(numLayers, numStages, 0);
    NoLayers();
    while s < numStages
      invariant s <= numStages && |parts| == s
      invariant start == FirstLayer(numLayers, numStages, s)
      invariant Flatten(parts) == Range(0, start)
      invariant forall j :: 0 <= j < s ==>
        parts[j] == Range(FirstLayer(numLayers, numStages, j), TakeOf(numLayers, numStages, j))
    {
      var take := base + if s < extra then 1 else 0;
      NextLayers(numLayers, numStages, s);
      TakeMore(parts, start, take);
      parts := parts + [Range(start, take)];
      start := start + take;
      s := s + 1;
    }
    out := Some(parts);
  }
}
