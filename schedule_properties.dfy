/** What the training schedule promises: how many batches each phase draws,
    how often each cadence action fires, the fixed order of the actions of
    one adversarial step, and the export rule of generator pretraining. */
module ScheduleProperties {
  import opened ImageNames
  import opened Cadence
  import opened Schedule

  /** The kinds of event the properties count. */
  datatype EventKind =
    | KPreTrainG | KPreTrainD | KCritic | KGen | KVal | KPretrainExport | KValidateExport
    | KDisplay | KSummary | KProgress | KSave | KStop

  function KindOf(e: Event): (r: EventKind)
  {
    match e
    case PreTrainG(_, _) => KPreTrainG
    case PreTrainD(_) => KPreTrainD
    case CriticBatch => KCritic
    case GenBatch(_, _) => KGen
    case ValBatch => KVal
    case Append(index, entry) =>
      if index == ValidateHtml then KValidateExport
      else if entry.DisplayEntry? then KDisplay
      else KPretrainExport
    case Summary => KSummary
    case Progress(_) => KProgress
    case Save => KSave
    case Stop => KStop
  }

  /** The number of events of kind `k` in `t`. */
  function Count(t: seq<Event>, k: EventKind): (r: nat)
  {
    CountTo(t, k, |t|)
  }

  /** The number of events of kind `k` among the first `n` of `t`. */
  function CountTo(t: seq<Event>, k: EventKind, n: nat): (r: nat)
    requires n <= |t|
  {
    if n == 0 then 0 else CountTo(t, k, n - 1) + (if KindOf(t[n - 1]) == k then 1 else 0)
  }

  /** The number of batches of the training split the adversarial loop draws. */
  function TrainBatches(t: seq<Event>): (r: nat)
  {
    Count(t, KCritic) + Count(t, KGen)
  }

  /** The total count handed to `pre_train_G` by the calls in `t`. */
  function PretrainGTotal(t: seq<Event>): (r: int)
  {
    if t == [] then 0
    else PretrainGTotal(t[..|t| - 1]) + (if t[|t| - 1].PreTrainG? then t[|t| - 1].count else 0)
  }

  lemma CountConcat(a: seq<Event>, b: seq<Event>, f: EventKind)
    ensures Count(a + b, f) == Count(a, f) + Count(b, f)
  {
    CountToConcat(a, b, f, |b|);
  }

  lemma {:induction false} CountToConcat(a: seq<Event>, b: seq<Event>, f: EventKind, j: nat)
    requires j <= |b|
    ensures CountTo(a + b, f, |a| + j) == Count(a, f) + CountTo(b, f, j)
  {
    if j == 0 {
      CountToPrefix(a, b, f, |a|);
    } else {
      CountToConcat(a, b, f, j - 1);
      assert (a + b)[|a| + j - 1] == b[j - 1];
    }
  }

  lemma {:induction false} CountToPrefix(a: seq<Event>, b: seq<Event>, f: EventKind, i: nat)
    requires i <= |a|
    ensures CountTo(a + b, f, i) == CountTo(a, f, i)
  {
    if i > 0 {
      CountToPrefix(a, b, f, i - 1);
      assert (a + b)[i - 1] == a[i - 1];
    }
  }

  lemma {:induction false} TotalConcat(a: seq<Event>, b: seq<Event>)
    ensures PretrainGTotal(a + b) == PretrainGTotal(a) + PretrainGTotal(b)
  {
    if b != [] {
      assert (a + b)[..|a + b| - 1] == a + b[..|b| - 1];
      TotalConcat(a, b[..|b| - 1]);
    } else {
      assert a + b == a;
    }
  }

  lemma CountNone(t: seq<Event>, f: EventKind)
    requires forall i :: 0 <= i < |t| ==> KindOf(t[i]) != f
    ensures Count(t, f) == 0
  {
    CountToNone(t, f, |t|);
  }

  lemma {:induction false} CountToNone(t: seq<Event>, f: EventKind, n: nat)
    requires n <= |t| && forall i :: 0 <= i < |t| ==> KindOf(t[i]) != f
    ensures CountTo(t, f, n) == 0
  {
    if n > 0 {
      CountToNone(t, f, n - 1);
    }
  }

  /** A kind that is not counted does not occur. */
  lemma CountZero(t: seq<Event>, f: EventKind)
    requires Count(t, f) == 0
    ensures forall i :: 0 <= i < |t| ==> KindOf(t[i]) != f
  {
    CountToZero(t, f, |t|);
  }

  lemma {:induction false} CountToZero(t: seq<Event>, f: EventKind, n: nat)
    requires n <= |t| && CountTo(t, f, n) == 0
    ensures forall i :: 0 <= i < n ==> KindOf(t[i]) != f
  {
    if n > 0 {
      CountToZero(t, f, n - 1);
    }
  }

  lemma CountSingle(e: Event, f: EventKind)
    ensures Count([e], f) == if KindOf(e) == f then 1 else 0
  {
    assert [e][0] == e && |[e]| == 1;
    assert CountTo([e], f, 0) == 0;
    assert Count([e], f) == CountTo([e], f, 1);
  }

  lemma TotalSingle(e: Event)
    ensures PretrainGTotal([e]) == if e.PreTrainG? then e.count else 0
  {
    assert [e][..0] == [];
  }

  lemma CountWhen(c: bool, t: seq<Event>, f: EventKind)
    ensures Count(When(c, t), f) == if c then Count(t, f) else 0
  {
  }

  // ---------------------------------------------------------------------
  // validate

  /** Every event of `validate(g)` is a split-1 batch or an export of an
      example under step `g` to the validation index. */
  lemma {:induction false} ValidateEvents(g: int, n: nat)
    ensures |ValidateTrace(g, n)| == 2 * n
    ensures forall e :: e in ValidateTrace(g, n) ==>
      e == ValBatch || (e.Append? && e.index == ValidateHtml && e.entry.ExampleEntry? && e.entry.step == g)
  {
    if n > 0 {
      ValidateEvents(g, n - 1);
    }
  }

  lemma {:induction false} ValidateRanks(g: int, n: nat)
    ensures RanksAre(ValidateTrace(g, n), 2)
  {
    if n > 0 {
      ValidateRanks(g, n - 1);
    }
  }

  /** `validate` draws exactly `n` validation batches, exports `n` examples
      and does nothing else. */
  lemma {:induction false} ValidateCounts(g: int, n: nat, f: EventKind)
    ensures Count(ValidateTrace(g, n), f) == if f == KVal || f == KValidateExport then n else 0
  {
    if n > 0 {
      ValidateCounts(g, n - 1, f);
      var a := ValBatch;
      var b := Append(ValidateHtml, ExampleEntry(g, n - 1));
      assert ValidateStep(g, n - 1) == [a] + [b];
      CountSingle(a, f);
      CountSingle(b, f);
      CountConcat([a], [b], f);
      CountConcat(ValidateTrace(g, n - 1), ValidateStep(g, n - 1), f);
    }
  }

  // ---------------------------------------------------------------------
  // One adversarial step

  /** The order in which the loop body runs its actions. */
  function StepRank(e: Event): (r: nat)
  {
    match e
    case CriticBatch => 0
    case GenBatch(_, _) => 1
    case ValBatch => 2
    case Append(index, _) => if index == ValidateHtml then 2 else 4
    case Summary => 3
    case Progress(_) => 5
    case Save => 6
    case _ => 7
  }

  predicate Ordered(t: seq<Event>)
  {
    forall i, j :: 0 <= i < j < |t| ==> StepRank(t[i]) <= StepRank(t[j])
  }

  predicate RanksAtMost(t: seq<Event>, r: nat)
  {
    forall i :: 0 <= i < |t| ==> StepRank(t[i]) <= r
  }

  predicate RanksAre(t: seq<Event>, r: nat)
  {
    forall i :: 0 <= i < |t| ==> StepRank(t[i]) == r
  }

  lemma Extend(a: seq<Event>, b: seq<Event>, r: nat)
    requires Ordered(a) && RanksAtMost(a, r) && RanksAre(b, r)
    ensures Ordered(a + b) && RanksAtMost(a + b, r)
  {
  }

  /** The number of events of kind `f` the cadence actions of a step with
      firing `fire` produce. */
  function ActionCountOf(nval: nat, fire: Firing, f: EventKind): (r: nat)
  {
    match f
    case KVal => if fire.validate then nval else 0
    case KValidateExport => if fire.validate then nval else 0
    case KSummary => if fire.summary then 1 else 0
    case KDisplay => if fire.display then 1 else 0
    case KProgress => if fire.progress then 1 else 0
    case KSave => if fire.save then 1 else 0
    case _ => 0
  }

  /** The number of events of kind `f` one adversarial step with `critics`
      critic batches produces. */
  function StepCountOf(critics: nat, nval: nat, fire: Firing, f: EventKind): (r: nat)
  {
    (if f == KCritic then critics else 0) + (if f == KGen then 1 else 0) + ActionCountOf(nval, fire, f)
  }

  lemma {:induction false} CriticsCount(n: nat, f: EventKind)
    ensures Count(seq(n, _ => CriticBatch), f) == if f == KCritic then n else 0
  {
    if n > 0 {
      CriticsCount(n - 1, f);
      assert seq(n, _ => CriticBatch) == seq(n - 1, _ => CriticBatch) + [CriticBatch];
      CountConcat(seq(n - 1, _ => CriticBatch), [CriticBatch], f);
      CountSingle(CriticBatch, f);
    }
  }

  lemma Count5(w1: seq<Event>, w2: seq<Event>, w3: seq<Event>, w4: seq<Event>, w5: seq<Event>, f: EventKind)
    ensures Count(w1 + w2 + w3 + w4 + w5, f) == Count(w1, f) + Count(w2, f) + Count(w3, f) + Count(w4, f) + Count(w5, f)
  {
    CountConcat(w1, w2, f);
    CountConcat(w1 + w2, w3, f);
    CountConcat(w1 + w2 + w3, w4, f);
    CountConcat(w1 + w2 + w3 + w4, w5, f);
  }

  lemma WhenCount(c: bool, e: Event, f: EventKind)
    ensures Count(When(c, [e]), f) == if c && KindOf(e) == f then 1 else 0
  {
    CountSingle(e, f);
  }

  lemma ActionsCount(nval: nat, step: int, fire: Firing, f: EventKind)
    ensures Count(Actions(nval, step, fire), f) == ActionCountOf(nval, fire, f)
  {
    var w1 := When(fire.validate, ValidateTrace(step, nval));
    var w2, w3 := When(fire.summary, [Summary]), When(fire.display, [Append(TrainHtml, DisplayEntry(step))]);
    var w4, w5 := When(fire.progress, [Progress(step)]), When(fire.save, [Save]);
    Count5(w1, w2, w3, w4, w5, f);
    ValidateCounts(step, nval, f);
    CountWhen(fire.validate, ValidateTrace(step, nval), f);
    WhenCount(fire.summary, Summary, f);
    WhenCount(fire.display, Append(TrainHtml, DisplayEntry(step)), f);
    WhenCount(fire.progress, Progress(step), f);
    WhenCount(fire.save, Save, f);
    SumOfActions(Count(w1, f), Count(w2, f), Count(w3, f), Count(w4, f), Count(w5, f), nval, fire, f);
  }

  /** The arithmetic of `ActionsCount`, kind by kind. */
  lemma SumOfActions(c1: nat, c2: nat, c3: nat, c4: nat, c5: nat, nval: nat, fire: Firing, f: EventKind)
    requires c1 == if fire.validate && (f == KVal || f == KValidateExport) then nval else 0
    requires c2 == if fire.summary && f == KSummary then 1 else 0
    requires c3 == if fire.display && f == KDisplay then 1 else 0
    requires c4 == if fire.progress && f == KProgress then 1 else 0
    requires c5 == if fire.save && f == KSave then 1 else 0
    ensures c1 + c2 + c3 + c4 + c5 == ActionCountOf(nval, fire, f)
  {
  }

  /** One adversarial step draws `critics` critic batches and one generator
      batch, `nval` validation batches and exports when it validates, and one
      summary, display, progress report and save when each fires; nothing
      else. */
  lemma StepCount(critics: nat, nval: nat, step: int, fire: Firing, f: EventKind)
    ensures Count(StepEvents(critics, nval, step, fire), f) == StepCountOf(critics, nval, fire, f)
  {
    var c := seq(critics, _ => CriticBatch);
    var g := GenBatch(fire.summary, fire.display);
    CriticsCount(critics, f);
    CountSingle(g, f);
    ActionsCount(nval, step, fire, f);
    CountConcat(c, [g], f);
    CountConcat(c + [g], Actions(nval, step, fire), f);
  }

  /** Five blocks whose ranks are 2, 3, 4, 5 and 6 form an ordered trace. */
  lemma Blocks(w1: seq<Event>, w2: seq<Event>, w3: seq<Event>, w4: seq<Event>, w5: seq<Event>)
    requires RanksAre(w1, 2) && RanksAre(w2, 3) && RanksAre(w3, 4) && RanksAre(w4, 5) && RanksAre(w5, 6)
    ensures Ordered(w1 + w2 + w3 + w4 + w5)
    ensures forall i :: 0 <= i < |w1 + w2 + w3 + w4 + w5| ==> 2 <= StepRank((w1 + w2 + w3 + w4 + w5)[i]) <= 6
  {
    Extend(w1, w2, 3);
    Extend(w1 + w2, w3, 4);
    Extend(w1 + w2 + w3, w4, 5);
    Extend(w1 + w2 + w3 + w4, w5, 6);
    MinRank(w1 + w2 + w3 + w4, w5);
  }

  lemma MinRank(a: seq<Event>, b: seq<Event>)
    requires forall i :: 0 <= i < |a| ==> StepRank(a[i]) >= 2
    requires forall i :: 0 <= i < |b| ==> StepRank(b[i]) >= 2
    ensures forall i :: 0 <= i < |a + b| ==> StepRank((a + b)[i]) >= 2
  {
  }

  lemma ActionsRanks(nval: nat, step: int, fire: Firing)
    ensures Ordered(Actions(nval, step, fire))
    ensures forall i :: 0 <= i < |Actions(nval, step, fire)| ==> 2 <= StepRank(Actions(nval, step, fire)[i]) <= 6
  {
    ValidateRanks(step, nval);
    Blocks(When(fire.validate, ValidateTrace(step, nval)), When(fire.summary, [Summary]),
           When(fire.display, [Append(TrainHtml, DisplayEntry(step))]), When(fire.progress, [Progress(step)]),
           When(fire.save, [Save]));
  }

  /** Within one adversarial step the critic batches come first, then the
      generator batch, then validation, summary, display, progress and save,
      in that order. */
  lemma StepOrdered(critics: nat, nval: nat, step: int, fire: Firing)
    ensures Ordered(StepEvents(critics, nval, step, fire))
    ensures forall i :: 0 <= i < critics ==> StepEvents(critics, nval, step, fire)[i] == CriticBatch
    ensures StepEvents(critics, nval, step, fire)[critics] == GenBatch(fire.summary, fire.display)
  {
    ActionsRanks(nval, step, fire);
    HeadThen(StepEvents(critics, nval, step, fire), critics, GenBatch(fire.summary, fire.display), Actions(nval, step, fire));
  }

  /** Critic batches, then one generator batch, then events ranked after it. */
  lemma HeadThen(t: seq<Event>, critics: nat, g: Event, acts: seq<Event>)
    requires t == seq(critics, _ => CriticBatch) + [g] + acts
    requires StepRank(g) == 1 && Ordered(acts)
    requires forall i :: 0 <= i < |acts| ==> 2 <= StepRank(acts[i])
    ensures Ordered(t)
    ensures forall i :: 0 <= i < critics ==> t[i] == CriticBatch
    ensures t[critics] == g
  {
    var t0 := seq(critics, _ => CriticBatch) + [g];
    assert Ordered(t0) && RanksAtMost(t0, 1);
  }

  /** The generator batch fetches the summary exactly when the step records
      one, and the images exactly when the step displays them; validation
      exports under the loop's own step number. */
  lemma StepFetchesWhatItUses(nval: nat, step: int, fire: Firing)
    ensures fire.summary <==> Summary in Actions(nval, step, fire)
    ensures fire.display <==> Append(TrainHtml, DisplayEntry(step)) in Actions(nval, step, fire)
    ensures forall e :: e in Actions(nval, step, fire) && e.Append? && e.index == ValidateHtml ==>
      e.entry.ExampleEntry? && e.entry.step == step
  {
    var w1 := When(fire.validate, ValidateTrace(step, nval));
    ValidateEvents(step, nval);
    assert Summary !in w1 && Append(TrainHtml, DisplayEntry(step)) !in w1;
  }

  // ---------------------------------------------------------------------
  // The adversarial loop

  /** The number of events of kind `f` in adversarial steps 0 .. k-1,
      step by step. */
  function AdvCountOf(p: Plan, k: nat, f: EventKind): (r: nat)
  {
    if k == 0 then 0
    else AdvCountOf(p, k - 1, f) + StepCountOf(RangeLen(p.discrimFreq), p.nval, FiringAt(p, k - 1), f)
  }

  lemma {:induction false} AdvStepsCount(p: Plan, k: nat, f: EventKind)
    ensures Count(AdvSteps(p, k), f) == AdvCountOf(p, k, f)
  {
    if k > 0 {
      AdvStepsCount(p, k - 1, f);
      StepCount(RangeLen(p.discrimFreq), p.nval, k - 1, FiringAt(p, k - 1), f);
      CountConcat(AdvSteps(p, k - 1), StepTrace(p, k - 1), f);
    }
  }

  /** `k` completed steps draw `k * discrim_freq` critic batches and `k`
      generator batches. */
  lemma {:induction false} AdvStepsBatches(p: Plan, k: nat)
    ensures Count(AdvSteps(p, k), KCritic) == k * RangeLen(p.discrimFreq)
    ensures Count(AdvSteps(p, k), KGen) == k
  {
    AdvStepsCount(p, k, KCritic);
    AdvStepsCount(p, k, KGen);
    BatchesOf(p, k);
  }

  lemma {:induction false} BatchesOf(p: Plan, k: nat)
    ensures AdvCountOf(p, k, KCritic) == k * RangeLen(p.discrimFreq)
    ensures AdvCountOf(p, k, KGen) == k
  {
    if k > 0 {
      BatchesOf(p, k - 1);
      assert k * RangeLen(p.discrimFreq) == (k - 1) * RangeLen(p.discrimFreq) + RangeLen(p.discrimFreq);
    }
  }

  /** The adversarial steps never pretrain and never stop by themselves. */
  lemma {:induction false} AdvStepsOnlyTrain(p: Plan, k: nat, f: EventKind)
    requires f in {KPreTrainG, KPreTrainD, KPretrainExport, KStop}
    ensures Count(AdvSteps(p, k), f) == 0
  {
    AdvStepsCount(p, k, f);
    NothingElse(p, k, f);
  }

  lemma {:induction false} NothingElse(p: Plan, k: nat, f: EventKind)
    requires f in {KPreTrainG, KPreTrainD, KPretrainExport, KStop}
    ensures AdvCountOf(p, k, f) == 0
  {
    if k > 0 {
      NothingElse(p, k - 1, f);
    }
  }

  /** The frequency that governs events of kind `f`. */
  function CadenceFreq(p: Plan, f: EventKind): (r: int)
  {
    match f
    case KSave => p.saveFreq
    case KSummary => p.summaryFreq
    case KProgress => p.progressFreq
    case KDisplay => p.displayFreq
    case _ => p.validateFreq
  }

  /** Saves, summaries, progress reports and displays each happen on exactly
      the steps where `should` holds for their frequency. */
  lemma {:induction false} CadenceOf(p: Plan, k: nat, f: EventKind)
    requires f in {KSave, KSummary, KProgress, KDisplay}
    ensures AdvCountOf(p, k, f) == Fires(CadenceFreq(p, f), p.maxSteps, k)
  {
    if k > 0 {
      CadenceOf(p, k - 1, f);
    }
  }

  /** Every validation draws `nval` batches of the validation split. */
  lemma {:induction false} ValidationsOf(p: Plan, k: nat)
    ensures AdvCountOf(p, k, KVal) == Fires(p.validateFreq, p.maxSteps, k) * p.nval
    ensures AdvCountOf(p, k, KValidateExport) == Fires(p.validateFreq, p.maxSteps, k) * p.nval
  {
    if k > 0 {
      ValidationsOf(p, k - 1);
      var fired := Should(p.validateFreq, k - 1, p.maxSteps);
      assert FiringAt(p, k - 1).validate == fired;
      ExportArith(Fires(p.validateFreq, p.maxSteps, k - 1), Fires(p.validateFreq, p.maxSteps, k), p.nval, fired);
    }
  }

  // ---------------------------------------------------------------------
  // The adversarial phase as a whole

  lemma AdversarialCount(p: Plan, stops: seq<bool>, f: EventKind)
    ensures Count(AdversarialTrace(p, stops), f) == AdvCountOf(p, StepsRun(p, stops), f) +
      (if f == KStop && FirstStop(stops, RangeLen(p.maxSteps)) < RangeLen(p.maxSteps) then 1 else 0)
  {
    var k := StepsRun(p, stops);
    AdvStepsCount(p, k, f);
    CountConcat(AdvSteps(p, k), [Stop], f);
    CountSingle(Stop, f);
  }

  /** Every step that runs draws `discrim_freq` critic batches and one
      generator batch; the steps that run are those up to and including the
      first one that sees a stop. */
  lemma AdversarialBatches(p: Plan, stops: seq<bool>)
    ensures Count(AdversarialTrace(p, stops), KCritic) == StepsRun(p, stops) * RangeLen(p.discrimFreq)
    ensures Count(AdversarialTrace(p, stops), KGen) == StepsRun(p, stops)
    ensures TrainBatches(AdversarialTrace(p, stops)) == StepsRun(p, stops) * (RangeLen(p.discrimFreq) + 1)
  {
    var k := StepsRun(p, stops);
    AdversarialCount(p, stops, KCritic);
    AdversarialCount(p, stops, KGen);
    BatchesOf(p, k);
    PlusOne(k, RangeLen(p.discrimFreq));
  }

  lemma PlusOne(k: int, d: int)
    ensures k * (d + 1) == k * d + k
  {
  }

  /** How many steps run: every step when no stop is signalled, otherwise
      the steps up to and including the first one that sees a stop. */
  lemma StepsRunCharacterised(p: Plan, stops: seq<bool>)
    ensures (forall s :: 0 <= s < p.maxSteps ==> !StopsAt(stops, s)) ==> StepsRun(p, stops) == RangeLen(p.maxSteps)
    ensures forall s :: 0 <= s < p.maxSteps && StopsAt(stops, s) && (forall s' :: 0 <= s' < s ==> !StopsAt(stops, s')) ==>
      StepsRun(p, stops) == s + 1
  {
  }

  /** Over a run that is not stopped, a save, summary, progress report or
      display with a positive frequency `f` happens `maxSteps / f` times,
      plus once more when `maxSteps` is not a multiple of `f`. */
  lemma CadencePerRun(p: Plan, stops: seq<bool>, f: EventKind)
    requires f in {KSave, KSummary, KProgress, KDisplay}
    requires CadenceFreq(p, f) > 0 && p.maxSteps > 0
    requires forall s :: 0 <= s < p.maxSteps ==> !StopsAt(stops, s)
    ensures Count(AdversarialTrace(p, stops), f) ==
      p.maxSteps / CadenceFreq(p, f) + (if p.maxSteps % CadenceFreq(p, f) != 0 then 1 else 0)
  {
    AdversarialCount(p, stops, f);
    CadenceOf(p, p.maxSteps, f);
    FiresPerRun(CadenceFreq(p, f), p.maxSteps);
  }

  /** A non-positive frequency switches its action off for the whole run. */
  lemma DisabledCadence(p: Plan, stops: seq<bool>, f: EventKind)
    requires f in {KSave, KSummary, KProgress, KDisplay, KVal, KValidateExport}
    requires CadenceFreq(p, f) <= 0
    ensures Count(AdversarialTrace(p, stops), f) == 0
  {
    if f in {KVal, KValidateExport} {
      DisabledValidation(p, stops);
    } else {
      DisabledAction(p, stops, f);
    }
  }

  /** A non-positive `validate_freq` means no validation batch and no
      validation export in the whole run. */
  lemma DisabledValidation(p: Plan, stops: seq<bool>)
    requires p.validateFreq <= 0
    ensures Count(AdversarialTrace(p, stops), KVal) == 0
    ensures Count(AdversarialTrace(p, stops), KValidateExport) == 0
  {
    var k := StepsRun(p, stops);
    AdversarialCount(p, stops, KVal);
    AdversarialCount(p, stops, KValidateExport);
    FiresDisabled(p.validateFreq, p.maxSteps, k);
    ValidationsOf(p, k);
  }

  /** A non-positive save, summary, progress or display frequency means no
      such action in the whole run. */
  lemma DisabledAction(p: Plan, stops: seq<bool>, f: EventKind)
    requires f in {KSave, KSummary, KProgress, KDisplay}
    requires CadenceFreq(p, f) <= 0
    ensures Count(AdversarialTrace(p, stops), f) == 0
  {
    var k := StepsRun(p, stops);
    AdversarialCount(p, stops, f);
    FiresDisabled(CadenceFreq(p, f), p.maxSteps, k);
    CadenceOf(p, k, f);
  }

  /** `Stop` appears at most once, and only when a stop was signalled. */
  lemma StopOnlyAtEnd(p: Plan, stops: seq<bool>)
    ensures Count(AdversarialTrace(p, stops), KStop) ==
      if FirstStop(stops, RangeLen(p.maxSteps)) < RangeLen(p.maxSteps) then 1 else 0
  {
    AdversarialCount(p, stops, KStop);
    NothingElse(p, StepsRun(p, stops), KStop);
  }

  /** A step that saves ends with the save. */
  lemma SaveEndsStep(critics: nat, nval: nat, step: int, fire: Firing)
    requires fire.save
    ensures var t := StepEvents(critics, nval, step, fire); |t| >= 1 && t[|t| - 1] == Save
  {
  }

  /** A stop ends the loop only after the whole step that saw it: the run
      ends with `Stop`, and when that step saves, the save comes right
      before the stop. */
  lemma StopAfterSave(p: Plan, stops: seq<bool>)
    requires FirstStop(stops, RangeLen(p.maxSteps)) < RangeLen(p.maxSteps)
    ensures var t := AdversarialTrace(p, stops);
      var s := FirstStop(stops, RangeLen(p.maxSteps));
      |t| >= 2 && t[|t| - 1] == Stop &&
      (Should(p.saveFreq, s, p.maxSteps) ==> t[|t| - 2] == Save)
  {
    var s := FirstStop(stops, RangeLen(p.maxSteps));
    var step := StepTrace(p, s);
    StepOrdered(RangeLen(p.discrimFreq), p.nval, s, FiringAt(p, s));
    assert |step| >= 1;
    if Should(p.saveFreq, s, p.maxSteps) {
      SaveEndsStep(RangeLen(p.discrimFreq), p.nval, s, FiringAt(p, s));
    }
    assert AdvSteps(p, s + 1) == AdvSteps(p, s) + step;
  }

  // ---------------------------------------------------------------------
  // Generator pretraining

  /** An exporting epoch alternates single-batch pretraining calls with the
      export of their images as example `i` under the epoch's step. */
  lemma {:induction false} ExportEpochShape(prefix: int, n: nat)
    ensures |ExportEpochTrace(prefix, n)| == 2 * n
    ensures forall j :: 0 <= j < 2 * n ==>
      ExportEpochTrace(prefix, n)[j] ==
        if j % 2 == 0 then PreTrainG(1, true) else Append(TrainHtml, ExampleEntry(prefix, j / 2))
  {
    if n > 0 {
      ExportEpochShape(prefix, n - 1);
    }
  }

  lemma {:induction false} ExportEpochCounts(prefix: int, n: nat, f: EventKind)
    ensures Count(ExportEpochTrace(prefix, n), f) == if f == KPreTrainG || f == KPretrainExport then n else 0
    ensures PretrainGTotal(ExportEpochTrace(prefix, n)) == n
  {
    if n > 0 {
      ExportEpochCounts(prefix, n - 1, f);
      var a := PreTrainG(1, true);
      var b := Append(TrainHtml, ExampleEntry(prefix, n - 1));
      assert ExportStep(prefix, n - 1) == [a] + [b];
      CountSingle(a, f);
      CountSingle(b, f);
      CountConcat([a], [b], f);
      CountConcat(ExportEpochTrace(prefix, n - 1), ExportStep(prefix, n - 1), f);
      TotalSingle(a);
      TotalSingle(b);
      TotalConcat([a], [b]);
      TotalConcat(ExportEpochTrace(prefix, n - 1), ExportStep(prefix, n - 1));
    }
  }

  lemma EpochTotal(p: Plan, e: int)
    ensures PretrainGTotal(EpochTrace(p, e)) == p.ntrain
  {
    EpochCounts(p, e, KPreTrainG);
  }

  lemma EpochExports(p: Plan, e: int)
    ensures Count(EpochTrace(p, e), KPretrainExport) == if ExportsEpoch(e, p.preTrainGEpoch) then p.ntrain else 0
  {
    EpochCounts(p, e, KPreTrainG);
  }

  lemma EpochOnly(p: Plan, e: int, f: EventKind)
    requires f != KPreTrainG && f != KPretrainExport
    ensures Count(EpochTrace(p, e), f) == 0
  {
    EpochCounts(p, e, f);
  }

  /** Every epoch pretrains on `ntrain` batches, whether it exports its
      images (one call per batch) or not (one call for the whole epoch). */
  lemma EpochCounts(p: Plan, e: int, f: EventKind)
    ensures PretrainGTotal(EpochTrace(p, e)) == p.ntrain
    ensures Count(EpochTrace(p, e), KPretrainExport) == if ExportsEpoch(e, p.preTrainGEpoch) then p.ntrain else 0
    ensures f != KPreTrainG && f != KPretrainExport ==> Count(EpochTrace(p, e), f) == 0
  {
    var E := p.preTrainGEpoch;
    if ExportsEpoch(e, E) {
      ExportEpochCounts(ExportPrefix(e, E), p.ntrain, f);
      ExportEpochCounts(ExportPrefix(e, E), p.ntrain, KPretrainExport);
    } else {
      CountSingle(PreTrainG(p.ntrain, false), f);
      CountSingle(PreTrainG(p.ntrain, false), KPretrainExport);
      assert [PreTrainG(p.ntrain, false)][..0] == [];
    }
  }

  lemma MulStep(k: int, n: int)
    ensures k * n == (k - 1) * n + n
  {
  }

  /** The number of epochs among 0 .. k-1 that export their images. */
  function Exported(epochs: int, k: nat): (r: nat)
  {
    if k == 0 then 0 else Exported(epochs, k - 1) + (if ExportsEpoch(k - 1, epochs) then 1 else 0)
  }

  /** Epochs 0 .. k-1 of generator pretraining see `k * ntrain` batches. */
  lemma {:induction false} PretrainGBatches(p: Plan, k: nat)
    ensures PretrainGTotal(PretrainGTrace(p, k)) == k * p.ntrain
  {
    if k > 0 {
      PretrainGBatches(p, k - 1);
      var a, b := PretrainGTrace(p, k - 1), EpochTrace(p, k - 1);
      EpochTotal(p, k - 1);
      TotalConcat(a, b);
      MulStep(k, p.ntrain);
    }
  }

  /** They export the images of `ntrain` examples per exporting epoch. */
  lemma {:induction false} PretrainGExports(p: Plan, k: nat)
    ensures Count(PretrainGTrace(p, k), KPretrainExport) == Exported(p.preTrainGEpoch, k) * p.ntrain
  {
    if k > 0 {
      PretrainGExports(p, k - 1);
      EpochExports(p, k - 1);
      ExportsThen(PretrainGTrace(p, k - 1), EpochTrace(p, k - 1), Exported(p.preTrainGEpoch, k - 1),
                  ExportsEpoch(k - 1, p.preTrainGEpoch), p.ntrain);
    }
  }

  /** The inductive step of `PretrainGExports`, on any two traces. */
  lemma ExportsThen(a: seq<Event>, b: seq<Event>, x: nat, ex: bool, n: nat)
    requires Count(a, KPretrainExport) == x * n
    requires Count(b, KPretrainExport) == if ex then n else 0
    ensures Count(a + b, KPretrainExport) == (x + (if ex then 1 else 0)) * n
  {
    CountConcat(a, b, KPretrainExport);
    ExportArith(x, x + (if ex then 1 else 0), n, ex);
  }

  lemma ExportArith(x: nat, y: nat, n: nat, ex: bool)
    requires y == x + (if ex then 1 else 0)
    ensures y * n == x * n + (if ex then n else 0)
  {
    if ex {
      MulStep(y, n);
    }
  }

  /** And they do nothing but pretrain the generator and export. */
  lemma {:induction false} PretrainGOnly(p: Plan, k: nat, f: EventKind)
    requires f != KPreTrainG && f != KPretrainExport
    ensures Count(PretrainGTrace(p, k), f) == 0
  {
    if k > 0 {
      PretrainGOnly(p, k - 1, f);
      EpochOnly(p, k - 1, f);
      CountConcat(PretrainGTrace(p, k - 1), EpochTrace(p, k - 1), f);
    }
  }

  /** Before the last epoch, exactly the epochs 0, 10, 20, ... export. */
  lemma {:induction false} ExportedBeforeLast(epochs: int, k: nat)
    requires k < epochs
    ensures Exported(epochs, k) == (k + 9) / 10
  {
    if k > 0 {
      ExportedBeforeLast(epochs, k - 1);
      DivStep(k + 8, 10);
    }
  }

  /** A run of `epochs >= 1` pretraining epochs exports every tenth epoch
      from the first, and the last one. */
  lemma ExportedPerRun(epochs: nat)
    requires epochs >= 1
    ensures Exported(epochs, epochs) == (epochs + 8) / 10 + 1
  {
    ExportedBeforeLast(epochs, epochs - 1);
  }

  // ---------------------------------------------------------------------
  // Names of the pretraining exports

  /** Export `a` comes before export `b`: by step, and within a step the
      examples in index order before the displayed images. */
  predicate EntryBefore(a: Entry, b: Entry)
  {
    a.step < b.step || (a.step == b.step && a.ExampleEntry? && (b.DisplayEntry? || a.index < b.index))
  }

  /** The exports of `t` appear in strictly increasing `EntryBefore` order. */
  predicate ExportsIncrease(t: seq<Event>)
  {
    forall i, j :: 0 <= i < j < |t| && t[i].Append? && t[j].Append? ==> EntryBefore(t[i].entry, t[j].entry)
  }

  /** Every export of `t` goes to the training index, as an example with a
      step in `lo .. hi-1` and an index in `0 .. n-1`. */
  predicate ExportsWithin(t: seq<Event>, lo: int, hi: int, n: int)
  {
    forall e :: e in t && e.Append? ==>
      e.index == TrainHtml && e.entry.ExampleEntry? && lo <= e.entry.step < hi && 0 <= e.entry.index < n
  }

  lemma ExportEpochEntries(prefix: int, n: nat)
    ensures ExportsWithin(ExportEpochTrace(prefix, n), prefix, prefix + 1, n)
    ensures ExportsIncrease(ExportEpochTrace(prefix, n))
  {
    var t := ExportEpochTrace(prefix, n);
    ExportEpochShape(prefix, n);
    forall i, j | 0 <= i < j < |t| && t[i].Append? && t[j].Append?
      ensures EntryBefore(t[i].entry, t[j].entry)
    {
      assert i % 2 == 1 && j % 2 == 1;
    }
  }

  lemma EpochEntries(p: Plan, e: int)
    ensures ExportsWithin(EpochTrace(p, e), ExportPrefix(e, p.preTrainGEpoch), ExportPrefix(e, p.preTrainGEpoch) + 1, p.ntrain)
    ensures ExportsIncrease(EpochTrace(p, e))
  {
    if ExportsEpoch(e, p.preTrainGEpoch) {
      ExportEpochEntries(ExportPrefix(e, p.preTrainGEpoch), p.ntrain);
    }
  }

  lemma ConcatIncrease(a: seq<Event>, b: seq<Event>, lo: int, mid: int, hi: int, n: int)
    requires ExportsIncrease(a) && ExportsIncrease(b)
    requires lo <= mid <= hi
    requires ExportsWithin(a, lo, mid, n) && ExportsWithin(b, mid, hi, n)
    ensures ExportsIncrease(a + b) && ExportsWithin(a + b, lo, hi, n)
  {
    var t := a + b;
    assert forall e :: e in t ==> e in a || e in b;
    forall i, j | 0 <= i < j < |t| && t[i].Append? && t[j].Append?
      ensures EntryBefore(t[i].entry, t[j].entry)
    {
      if j < |a| {
        assert t[i] == a[i] && t[j] == a[j];
      } else if i >= |a| {
        assert t[i] == b[i - |a|] && t[j] == b[j - |a|];
      } else {
        assert t[i] == a[i] && t[i] in a;
        assert t[j] == b[j - |a|] && t[j] in b;
      }
    }
  }

  /** Epochs 0 .. k-1 export in increasing (step, example) order under the
      steps `-epochs .. -epochs+k-1`. */
  lemma {:induction false} PretrainGEntries(p: Plan, k: nat)
    ensures ExportsWithin(PretrainGTrace(p, k), -p.preTrainGEpoch, -p.preTrainGEpoch + k, p.ntrain)
    ensures ExportsIncrease(PretrainGTrace(p, k))
  {
    var E := p.preTrainGEpoch;
    if k > 0 {
      PretrainGEntries(p, k - 1);
      EpochEntries(p, k - 1);
      ConcatIncrease(PretrainGTrace(p, k - 1), EpochTrace(p, k - 1), -E, -E + k - 1, -E + k, p.ntrain);
    }
  }

  /** Generator pretraining exports under negative steps `-epochs .. -1`,
      and no two of its exports share an image name, so none overwrites
      another. */
  lemma PretrainExportsDistinct(p: Plan)
    ensures var t := PretrainGTrace(p, RangeLen(p.preTrainGEpoch));
      ExportsWithin(t, -p.preTrainGEpoch, 0, p.ntrain) &&
      forall i, j :: 0 <= i < j < |t| && t[i].Append? && t[j].Append? ==> EntryNames(t[i].entry) != EntryNames(t[j].entry)
  {
    var t := PretrainGTrace(p, RangeLen(p.preTrainGEpoch));
    PretrainGEntries(p, RangeLen(p.preTrainGEpoch));
    forall i, j | 0 <= i < j < |t| && t[i].Append? && t[j].Append?
      ensures EntryNames(t[i].entry) != EntryNames(t[j].entry)
    {
      if EntryNames(t[i].entry) == EntryNames(t[j].entry) {
        EntryNamesInjective(t[i].entry, t[j].entry);
      }
    }
  }

  /** The last epoch always exports, so pretraining ends with the export of
      the last example under step -1. */
  lemma PretrainEndsWithLastExport(p: Plan)
    requires p.preTrainGEpoch > 0 && p.ntrain > 0
    ensures var t := PretrainGTrace(p, RangeLen(p.preTrainGEpoch));
      |t| > 0 && t[|t| - 1] == Append(TrainHtml, ExampleEntry(-1, p.ntrain - 1))
  {
    var E := p.preTrainGEpoch;
    assert PretrainGTrace(p, E) == PretrainGTrace(p, E - 1) + EpochTrace(p, E - 1);
    assert EpochTrace(p, E - 1) == ExportEpochTrace(-1, p.ntrain);
  }

  // ---------------------------------------------------------------------
  // The whole run

  lemma TotalWithoutPretrain(t: seq<Event>)
    requires Count(t, KPreTrainG) == 0
    ensures PretrainGTotal(t) == 0
  {
    CountZero(t, KPreTrainG);
    TotalNone(t);
  }

  lemma {:induction false} TotalNone(t: seq<Event>)
    requires forall i :: 0 <= i < |t| ==> KindOf(t[i]) != KPreTrainG
    ensures PretrainGTotal(t) == 0
  {
    if t != [] {
      assert KindOf(t[|t| - 1]) != KPreTrainG;
      assert forall i :: 0 <= i < |t| - 1 ==> t[..|t| - 1][i] == t[i];
      TotalNone(t[..|t| - 1]);
    }
  }

  /** A training run pretrains the generator on `ntrain` batches per epoch,
      draws `discrim_freq + 1` training batches per adversarial step that
      runs, and calls `pre_train_D` exactly once. */
  lemma TrainCounts(p: Plan, stops: seq<bool>)
    ensures PretrainGTotal(TrainTrace(p, stops)) == RangeLen(p.preTrainGEpoch) * p.ntrain
    ensures TrainBatches(TrainTrace(p, stops)) == StepsRun(p, stops) * (RangeLen(p.discrimFreq) + 1)
    ensures Count(TrainTrace(p, stops), KPreTrainD) == 1
  {
    var a := PretrainGTrace(p, RangeLen(p.preTrainGEpoch));
    var d := [PreTrainD(p.preTrainDEpoch * p.ntrain)];
    var b := AdversarialTrace(p, stops);
    PretrainGBatches(p, RangeLen(p.preTrainGEpoch));
    PretrainGOnly(p, RangeLen(p.preTrainGEpoch), KCritic);
    PretrainGOnly(p, RangeLen(p.preTrainGEpoch), KGen);
    PretrainGOnly(p, RangeLen(p.preTrainGEpoch), KPreTrainD);
    AdversarialBatches(p, stops);
    AdversarialCount(p, stops, KPreTrainG);
    AdversarialCount(p, stops, KPreTrainD);
    NothingElse(p, StepsRun(p, stops), KPreTrainG);
    NothingElse(p, StepsRun(p, stops), KPreTrainD);
    TotalWithoutPretrain(b);
    TotalSingle(d[0]);
    TotalConcat(a, d);
    TotalConcat(a + d, b);
    CountSingle(d[0], KCritic);
    CountSingle(d[0], KGen);
    CountSingle(d[0], KPreTrainD);
    CountConcat(a, d, KCritic);
    CountConcat(a + d, b, KCritic);
    CountConcat(a, d, KGen);
    CountConcat(a + d, b, KGen);
    CountConcat(a, d, KPreTrainD);
    CountConcat(a + d, b, KPreTrainD);
  }

  /** Generator pretraining draws no adversarial batch and does not
      pretrain the discriminator. */
  lemma PretrainGOnlyPretrains(p: Plan)
    ensures forall e :: e in PretrainGTrace(p, RangeLen(p.preTrainGEpoch)) ==>
      !(e.CriticBatch? || e.GenBatch? || e.PreTrainD?)
  {
    var a := PretrainGTrace(p, RangeLen(p.preTrainGEpoch));
    PretrainGOnly(p, RangeLen(p.preTrainGEpoch), KCritic);
    PretrainGOnly(p, RangeLen(p.preTrainGEpoch), KGen);
    PretrainGOnly(p, RangeLen(p.preTrainGEpoch), KPreTrainD);
    CountZero(a, KCritic);
    CountZero(a, KGen);
    CountZero(a, KPreTrainD);
  }

  /** The adversarial phase does not pretrain. */
  lemma AdversarialNeverPretrains(p: Plan, stops: seq<bool>)
    ensures forall e :: e in AdversarialTrace(p, stops) ==> !(e.PreTrainG? || e.PreTrainD?)
  {
    var b := AdversarialTrace(p, stops);
    AdversarialCount(p, stops, KPreTrainG);
    AdversarialCount(p, stops, KPreTrainD);
    NothingElse(p, StepsRun(p, stops), KPreTrainG);
    NothingElse(p, StepsRun(p, stops), KPreTrainD);
    CountZero(b, KPreTrainG);
    CountZero(b, KPreTrainD);
  }

  /** The three phases do not interleave: every generator-pretraining call
      comes before the single discriminator-pretraining call, and every
      adversarial batch after it. */
  lemma TrainPhases(p: Plan, stops: seq<bool>)
    ensures var t := TrainTrace(p, stops);
      var d := |PretrainGTrace(p, RangeLen(p.preTrainGEpoch))|;
      d < |t| && t[d] == PreTrainD(p.preTrainDEpoch * p.ntrain) &&
      (forall i :: 0 <= i < |t| && t[i].PreTrainG? ==> i < d) &&
      (forall i :: 0 <= i < |t| && (t[i].CriticBatch? || t[i].GenBatch?) ==> i > d) &&
      (forall i :: 0 <= i < |t| && t[i].PreTrainD? ==> i == d)
  {
    var a := PretrainGTrace(p, RangeLen(p.preTrainGEpoch));
    var b := AdversarialTrace(p, stops);
    var t := TrainTrace(p, stops);
    PretrainGOnlyPretrains(p);
    AdversarialNeverPretrains(p, stops);
    forall i | 0 <= i < |t|
      ensures t[i].PreTrainG? ==> i < |a|
      ensures (t[i].CriticBatch? || t[i].GenBatch?) ==> i > |a|
      ensures t[i].PreTrainD? ==> i == |a|
    {
      if i < |a| {
        assert t[i] == a[i] && a[i] in a;
      } else if i > |a| {
        assert t[i] == b[i - |a| - 1] && b[i - |a| - 1] in b;
      }
    }
  }

  /** Everything a training run does besides pretraining happens in the
      adversarial phase. */
  lemma AdversarialOnly(p: Plan, stops: seq<bool>, f: EventKind)
    requires f != KPreTrainG && f != KPretrainExport && f != KPreTrainD
    ensures Count(TrainTrace(p, stops), f) == Count(AdversarialTrace(p, stops), f)
  {
    var a := PretrainGTrace(p, RangeLen(p.preTrainGEpoch));
    var d := [PreTrainD(p.preTrainDEpoch * p.ntrain)];
    var b := AdversarialTrace(p, stops);
    PretrainGOnly(p, RangeLen(p.preTrainGEpoch), f);
    CountSingle(d[0], f);
    CountConcat(a, d, f);
    CountConcat(a + d, b, f);
  }
}
