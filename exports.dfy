/** The exports of a whole run: every call of `append` in a run hands over a
    names record that no earlier call of the same run used, so no image file
    under images/ is written twice. Generator pretraining exports under
    negative steps, and the adversarial loop exports under its own loop step,
    validation examples before the displayed images. */
module Exports {
  import opened ImageNames
  import opened Schedule
  import opened ScheduleProperties

  /** No two exports of `t` name the same image file, whatever the kinds. */
  predicate DistinctFiles(t: seq<Event>)
  {
    forall i, j, k1, k2 :: 0 <= i < j < |t| && t[i].Append? && t[j].Append? ==>
      FileName(EntryFile(t[i].entry, k1)) != FileName(EntryFile(t[j].entry, k2))
  }

  /** `t` exports nothing. */
  predicate NoExports(t: seq<Event>)
  {
    forall i :: 0 <= i < |t| ==> !t[i].Append?
  }

  /** Every export of `t` is under a step in `lo .. hi-1`. */
  predicate StepsIn(t: seq<Event>, lo: int, hi: int)
  {
    forall i :: 0 <= i < |t| && t[i].Append? ==> lo <= t[i].entry.step < hi
  }

  /** Every export of `a` comes before every export of `b`. */
  predicate AllBefore(a: seq<Event>, b: seq<Event>)
  {
    forall i, j :: 0 <= i < |a| && 0 <= j < |b| && a[i].Append? && b[j].Append? ==> EntryBefore(a[i].entry, b[j].entry)
  }

  lemma Join(a: seq<Event>, b: seq<Event>)
    requires ExportsIncrease(a) && ExportsIncrease(b) && AllBefore(a, b)
    ensures ExportsIncrease(a + b)
  {
    var t := a + b;
    forall i, j | 0 <= i < j < |t| && t[i].Append? && t[j].Append?
      ensures EntryBefore(t[i].entry, t[j].entry)
    {
      if j < |a| {
        assert t[i] == a[i] && t[j] == a[j];
      } else if i >= |a| {
        assert t[i] == b[i - |a|] && t[j] == b[j - |a|];
      } else {
        assert t[i] == a[i] && t[j] == b[j - |a|];
      }
    }
  }

  /** Joining after or before a stretch without exports keeps the order. */
  lemma JoinQuiet(a: seq<Event>, b: seq<Event>)
    requires ExportsIncrease(a) && NoExports(b)
    ensures ExportsIncrease(a + b) && ExportsIncrease(b + a)
  {
    Join(a, b);
    Join(b, a);
  }

  lemma StepsInConcat(a: seq<Event>, b: seq<Event>, lo: int, hi: int)
    requires StepsIn(a, lo, hi) && StepsIn(b, lo, hi)
    ensures StepsIn(a + b, lo, hi)
  {
    var t := a + b;
    forall i | 0 <= i < |t| && t[i].Append?
      ensures lo <= t[i].entry.step < hi
    {
      if i < |a| {
        assert t[i] == a[i];
      } else {
        assert t[i] == b[i - |a|];
      }
    }
  }

  /** Joining two stretches whose steps lie in adjacent ranges keeps the
      order. */
  lemma JoinSteps(a: seq<Event>, b: seq<Event>, lo: int, mid: int, hi: int)
    requires ExportsIncrease(a) && ExportsIncrease(b)
    requires StepsIn(a, lo, mid) && StepsIn(b, mid, hi) && lo <= mid <= hi
    ensures ExportsIncrease(a + b) && StepsIn(a + b, lo, hi)
  {
    assert AllBefore(a, b);
    assert StepsIn(a, lo, hi) && StepsIn(b, lo, hi);
    Join(a, b);
    StepsInConcat(a, b, lo, hi);
  }

  /** Exports that increase never name the same file twice. */
  lemma IncreasingDistinct(t: seq<Event>)
    requires ExportsIncrease(t)
    ensures DistinctFiles(t)
  {
    forall i, j, k1, k2 | 0 <= i < j < |t| && t[i].Append? && t[j].Append?
      ensures FileName(EntryFile(t[i].entry, k1)) != FileName(EntryFile(t[j].entry, k2))
    {
      if FileName(EntryFile(t[i].entry, k1)) == FileName(EntryFile(t[j].entry, k2)) {
        FileNameInjective(EntryFile(t[i].entry, k1), EntryFile(t[j].entry, k2));
      }
    }
  }

  /** `validate(g)` exports examples `0 .. n-1` under step `g`, in order. */
  lemma {:induction false} ValidateIncrease(g: int, n: nat)
    ensures ExportsIncrease(ValidateTrace(g, n))
    ensures forall i :: 0 <= i < |ValidateTrace(g, n)| && ValidateTrace(g, n)[i].Append? ==>
      ValidateTrace(g, n)[i].entry.ExampleEntry? && ValidateTrace(g, n)[i].entry.step == g &&
      0 <= ValidateTrace(g, n)[i].entry.index < n
  {
    if n > 0 {
      ValidateIncrease(g, n - 1);
      var a, b := ValidateTrace(g, n - 1), ValidateStep(g, n - 1);
      Join(a, b);
      var t := a + b;
      forall i | 0 <= i < |t| && t[i].Append?
        ensures t[i].entry.ExampleEntry? && t[i].entry.step == g && 0 <= t[i].entry.index < n
      {
        if i < |a| {
          assert t[i] == a[i];
        } else {
          assert t[i] == b[i - |a|];
        }
      }
    }
  }

  /** Every export of `t` is an example under step `step`. */
  predicate ExamplesAt(t: seq<Event>, step: int)
  {
    forall i :: 0 <= i < |t| && t[i].Append? ==> t[i].entry.ExampleEntry? && t[i].entry.step == step
  }

  /** An action that exports nothing keeps the order. */
  lemma QuietAfter(u: seq<Event>, c: bool, e: Event, lo: int, hi: int)
    requires ExportsIncrease(u) && StepsIn(u, lo, hi) && !e.Append?
    ensures ExportsIncrease(u + When(c, [e])) && StepsIn(u + When(c, [e]), lo, hi)
  {
    assert NoExports(When(c, [e]));
    JoinQuiet(u, When(c, [e]));
    StepsInConcat(u, When(c, [e]), lo, hi);
  }

  /** The validation pass and the summary export the examples of the step. */
  lemma ValidationPart(nval: nat, step: int, f: Firing)
    ensures var u := When(f.validate, ValidateTrace(step, nval)) + When(f.summary, [Summary]);
      ExportsIncrease(u) && ExamplesAt(u, step)
  {
    var w1, w2 := When(f.validate, ValidateTrace(step, nval)), When(f.summary, [Summary]);
    ValidateIncrease(step, nval);
    assert NoExports(w2);
    JoinQuiet(w1, w2);
    var u := w1 + w2;
    forall i | 0 <= i < |u| && u[i].Append?
      ensures u[i].entry.ExampleEntry? && u[i].entry.step == step
    {
      assert i < |w1| && u[i] == w1[i];
    }
  }

  /** The displayed images come after the examples of their step. */
  lemma DisplayAfter(u: seq<Event>, step: int, c: bool)
    requires ExportsIncrease(u) && ExamplesAt(u, step)
    ensures var d := When(c, [Append(TrainHtml, DisplayEntry(step))]);
      ExportsIncrease(u + d) && StepsIn(u + d, step, step + 1)
  {
    var d := When(c, [Append(TrainHtml, DisplayEntry(step))]);
    assert AllBefore(u, d);
    Join(u, d);
    StepsInConcat(u, d, step, step + 1);
  }

  /** One step's cadence actions export under the loop step: the validation
      examples in order, then the displayed images. */
  lemma ActionsIncrease(nval: nat, step: int, f: Firing)
    ensures ExportsIncrease(Actions(nval, step, f))
    ensures StepsIn(Actions(nval, step, f), step, step + 1)
  {
    var u := When(f.validate, ValidateTrace(step, nval)) + When(f.summary, [Summary]);
    var d := When(f.display, [Append(TrainHtml, DisplayEntry(step))]);
    ValidationPart(nval, step, f);
    DisplayAfter(u, step, f.display);
    QuietAfter(u + d, f.progress, Progress(step), step, step + 1);
    QuietAfter(u + d + When(f.progress, [Progress(step)]), f.save, Save, step, step + 1);
  }

  /** A whole adversarial step exports like its cadence actions. */
  lemma StepIncrease(p: Plan, step: int)
    ensures ExportsIncrease(StepTrace(p, step))
    ensures StepsIn(StepTrace(p, step), step, step + 1)
  {
    var f := FiringAt(p, step);
    var head := seq(RangeLen(p.discrimFreq), _ => CriticBatch) + [GenBatch(f.summary, f.display)];
    var actions := Actions(p.nval, step, f);
    ActionsIncrease(p.nval, step, f);
    assert NoExports(head);
    JoinQuiet(actions, head);
    StepsInConcat(head, actions, step, step + 1);
  }

  /** Adversarial steps 0 .. k-1 export in increasing order under steps
      `0 .. k-1`. */
  lemma AdvIncrease(p: Plan, k: nat)
    ensures ExportsIncrease(AdvSteps(p, k))
    ensures StepsIn(AdvSteps(p, k), 0, k)
  {
    var t := [];
    for s := 0 to k
      invariant t == AdvSteps(p, s)
      invariant ExportsIncrease(t) && StepsIn(t, 0, s)
    {
      StepAfter(t, p, s);
      t := t + StepTrace(p, s);
    }
  }

  /** Appending step `s` to exports under steps `0 .. s-1` keeps the order. */
  lemma StepAfter(a: seq<Event>, p: Plan, s: nat)
    requires ExportsIncrease(a) && StepsIn(a, 0, s)
    ensures ExportsIncrease(a + StepTrace(p, s)) && StepsIn(a + StepTrace(p, s), 0, s + 1)
  {
    StepIncrease(p, s);
    JoinSteps(a, StepTrace(p, s), 0, s, s + 1);
  }

  /** The adversarial phase exports under non-negative steps, in order. */
  lemma AdversarialIncrease(p: Plan, stops: seq<bool>)
    ensures ExportsIncrease(AdversarialTrace(p, stops))
    ensures StepsIn(AdversarialTrace(p, stops), 0, StepsRun(p, stops))
  {
    var k := StepsRun(p, stops);
    AdvIncrease(p, k);
    if FirstStop(stops, RangeLen(p.maxSteps)) < RangeLen(p.maxSteps) {
      JoinQuiet(AdvSteps(p, k), [Stop]);
      StepsInConcat(AdvSteps(p, k), [Stop], 0, k);
    }
  }

  /** A training run exports in increasing order: all of generator
      pretraining under negative steps, then the adversarial phase. */
  lemma TrainIncrease(p: Plan, stops: seq<bool>)
    ensures ExportsIncrease(TrainTrace(p, stops))
  {
    var a := PretrainGTrace(p, RangeLen(p.preTrainGEpoch));
    var d := [PreTrainD(p.preTrainDEpoch * p.ntrain)];
    var b := AdversarialTrace(p, stops);
    PretrainGEntries(p, RangeLen(p.preTrainGEpoch));
    PretrainExportsDistinct(p);
    AdversarialIncrease(p, stops);
    JoinQuiet(a, d);
    assert forall i :: 0 <= i < |a + d| && (a + d)[i].Append? ==> (a + d)[i].entry.step < 0 by {
      forall i | 0 <= i < |a + d| && (a + d)[i].Append?
        ensures (a + d)[i].entry.step < 0
      {
        assert i < |a| && (a + d)[i] == a[i] && a[i] in a;
      }
    }
    Join(a + d, b);
  }

  /** No image file is written twice in one training run. */
  lemma TrainFilesDistinct(p: Plan, stops: seq<bool>)
    ensures DistinctFiles(TrainTrace(p, stops))
  {
    TrainIncrease(p, stops);
    IncreasingDistinct(TrainTrace(p, stops));
  }

  /** No image file is written twice by `validate(g)`. */
  lemma ValidateFilesDistinct(g: int, n: nat)
    ensures DistinctFiles(ValidateTrace(g, n))
  {
    ValidateIncrease(g, n);
    IncreasingDistinct(ValidateTrace(g, n));
  }
}
