/** The training schedule of main.py `run` (train mode) and `validate`, as
    the trace of opaque actions it performs. Each loop of the source is a
    method proved to produce the trace its specification function gives. */
module Schedule {
  import opened ImageNames
  import opened Cadence

  /** The two HTML index files rows are appended to. */
  datatype Index = TrainHtml | ValidateHtml

  function IndexFile(i: Index): (r: string)
  {
    match i
    case TrainHtml => "train.html"
    case ValidateHtml => "validate.html"
  }

  /** One action of the schedule. Everything numeric happens inside the
      model's training operations, which the trace only names. */
  datatype Event =
    | PreTrainG(count: int, withImages: bool)         // model.pre_train_G(fetches, sess, loader, count)
    | PreTrainD(count: int)                           // model.pre_train_D({}, sess, loader, count)
    | CriticBatch                                     // next_batch(0), then one discrim_train run
    | GenBatch(withSummary: bool, withImages: bool)   // next_batch(0), then one gen_adversarial_train run
    | ValBatch                                        // next_batch(1), then one forward run
    | Append(index: Index, entry: Entry)              // append(IndexFile(index), results, EntryNames(entry))
    | Summary                                         // summary_writer.add_summary
    | Progress(step: int)                             // the progress report of loop step `step`
    | Save                                            // saver.save
    | Stop                                            // sv.should_stop() answered true: break

  /** The knobs of one training run; the cadence frequencies are the values
      after scaling by `ntrain`. */
  datatype Plan = Plan(
    ntrain: nat,            // loader.ntrain
    nval: nat,              // loader.nval
    maxSteps: int,          // max_epochs * ntrain
    preTrainGEpoch: int,
    preTrainDEpoch: int,
    discrimFreq: int,
    summaryFreq: int,
    displayFreq: int,
    validateFreq: int,
    progressFreq: int,
    saveFreq: int)

  /** The number of iterations of Python's `range(n)`. */
  function RangeLen(n: int): (r: nat)
  {
    if n > 0 then n else 0
  }

  /** `validate(g)`: examples 0 .. n-1 of split 1, each fetched and exported
      under step `g` to the validation index. */
  function ValidateTrace(g: int, n: nat): (r: seq<Event>)
  {
    if n == 0 then [] else ValidateTrace(g, n - 1) + ValidateStep(g, n - 1)
  }

  /** Example `i` of the validation set, fetched and exported under step `g`. */
  function ValidateStep(g: int, i: int): (r: seq<Event>)
  {
    [ValBatch, Append(ValidateHtml, ExampleEntry(g, i))]
  }

  method Validate(g: int, nval: nat) returns (trace: seq<Event>)
    ensures trace == ValidateTrace(g, nval)
  {
    trace := [];
    for step := 0 to nval
      invariant trace == ValidateTrace(g, step)
    {
      trace := trace + ValidateStep(g, step);
    }
  }

  /** Generator-pretraining epoch `e` of `epochs` exports its images. */
  predicate ExportsEpoch(e: int, epochs: int)
  {
    e % 10 == 0 || e == epochs - 1
  }

  /** The negative step under which pretraining epoch `e` is exported. */
  function ExportPrefix(e: int, epochs: int): (r: int)
  {
    -epochs + e
  }

  /** One single-batch pretraining call whose images are exported as
      example `i` under step `prefix`. */
  function ExportStep(prefix: int, i: int): (r: seq<Event>)
  {
    [PreTrainG(1, true), Append(TrainHtml, ExampleEntry(prefix, i))]
  }

  /** The first `n` single-batch pretraining calls of an exporting epoch. */
  function ExportEpochTrace(prefix: int, n: nat): (r: seq<Event>)
  {
    if n == 0 then [] else ExportEpochTrace(prefix, n - 1) + ExportStep(prefix, n - 1)
  }

  function EpochTrace(p: Plan, e: int): (r: seq<Event>)
  {
    if ExportsEpoch(e, p.preTrainGEpoch) then ExportEpochTrace(ExportPrefix(e, p.preTrainGEpoch), p.ntrain)
    else [PreTrainG(p.ntrain, false)]
  }

  /** Generator-pretraining epochs 0 .. k-1. */
  function PretrainGTrace(p: Plan, k: nat): (r: seq<Event>)
  {
    if k == 0 then [] else PretrainGTrace(p, k - 1) + EpochTrace(p, k - 1)
  }

  /** `t` when `c` holds, nothing otherwise. */
  function When(c: bool, t: seq<Event>): (r: seq<Event>)
  {
    if c then t else []
  }

  /** Which cadence actions fire at one adversarial step. */
  datatype Firing = Firing(validate: bool, summary: bool, display: bool, progress: bool, save: bool)

  /** `should` evaluated for every cadence at loop step `step`. */
  function FiringAt(p: Plan, step: int): (r: Firing)
  {
    var m := p.maxSteps;
    Firing(Should(p.validateFreq, step, m), Should(p.summaryFreq, step, m), Should(p.displayFreq, step, m),
           Should(p.progressFreq, step, m), Should(p.saveFreq, step, m))
  }

  /** The cadence actions of step `step`, in the order the loop body runs them. */
  function Actions(nval: nat, step: int, f: Firing): (r: seq<Event>)
  {
    When(f.validate, ValidateTrace(step, nval))
    + When(f.summary, [Summary])
    + When(f.display, [Append(TrainHtml, DisplayEntry(step))])
    + When(f.progress, [Progress(step)])
    + When(f.save, [Save])
  }

  /** One adversarial step with `critics` critic batches: the generator
      batch also fetches the summary and the images when the step records or
      displays them. */
  function StepEvents(critics: nat, nval: nat, step: int, f: Firing): (r: seq<Event>)
  {
    seq(critics, _ => CriticBatch) + [GenBatch(f.summary, f.display)] + Actions(nval, step, f)
  }

  /** The actions of adversarial loop step `step`, without the stop check. */
  function StepTrace(p: Plan, step: int): (r: seq<Event>)
  {
    StepEvents(RangeLen(p.discrimFreq), p.nval, step, FiringAt(p, step))
  }

  /** Adversarial steps 0 .. k-1, none of them stopped. */
  function AdvSteps(p: Plan, k: nat): (r: seq<Event>)
  {
    if k == 0 then [] else AdvSteps(p, k - 1) + StepTrace(p, k - 1)
  }

  /** `sv.should_stop()` answers true after step `s`. */
  predicate StopsAt(stops: seq<bool>, s: int)
  {
    0 <= s < |stops| && stops[s]
  }

  /** The first step below `n` after which a stop is signalled, or `n`. */
  function FirstStop(stops: seq<bool>, n: nat): (r: nat)
    ensures r <= n
    ensures forall s :: 0 <= s < r ==> !StopsAt(stops, s)
    ensures r < n ==> StopsAt(stops, r)
  {
    if n == 0 then 0
    else
      var r := FirstStop(stops, n - 1);
      if r < n - 1 then r
      else if StopsAt(stops, n - 1) then n - 1
      else n
  }

  /** The number of adversarial steps that run to completion. */
  function StepsRun(p: Plan, stops: seq<bool>): (r: nat)
  {
    var n := RangeLen(p.maxSteps);
    var s := FirstStop(stops, n);
    if s < n then s + 1 else n
  }

  /** The adversarial phase: every step up to and including the first one
      that sees a stop, then `Stop`. */
  function AdversarialTrace(p: Plan, stops: seq<bool>): (r: seq<Event>)
  {
    var n := RangeLen(p.maxSteps);
    if FirstStop(stops, n) < n then AdvSteps(p, StepsRun(p, stops)) + [Stop]
    else AdvSteps(p, n)
  }

  /** The whole of a training run. */
  function TrainTrace(p: Plan, stops: seq<bool>): (r: seq<Event>)
  {
    PretrainGTrace(p, RangeLen(p.preTrainGEpoch))
    + [PreTrainD(p.preTrainDEpoch * p.ntrain)]
    + AdversarialTrace(p, stops)
  }

  method PretrainGenerator(p: Plan) returns (trace: seq<Event>)
    ensures trace == PretrainGTrace(p, RangeLen(p.preTrainGEpoch))
  {
    trace := [];
    for e := 0 to RangeLen(p.preTrainGEpoch)
      invariant trace == PretrainGTrace(p, e)
    {
      if e % 10 == 0 || e == p.preTrainGEpoch - 1 {
        ghost var before := trace;
        var prefix := -p.preTrainGEpoch + e;
        for step := 0 to p.ntrain
          invariant trace == before + ExportEpochTrace(prefix, step)
        {
          trace := trace + ExportStep(prefix, step);
        }
        assert EpochTrace(p, e) == ExportEpochTrace(prefix, p.ntrain);
      } else {
        trace := trace + [PreTrainG(p.ntrain, false)];
        assert EpochTrace(p, e) == [PreTrainG(p.ntrain, false)];
      }
    }
  }

  method AdversarialLoop(p: Plan, stops: seq<bool>) returns (trace: seq<Event>)
    ensures trace == AdversarialTrace(p, stops)
  {
    var n := RangeLen(p.maxSteps);
    trace := [];
    for step := 0 to n
      invariant forall s :: 0 <= s < step ==> !StopsAt(stops, s)
      invariant trace == AdvSteps(p, step)
    {
      var events := AdversarialStep(p, step);
      trace := trace + events;
      if StopsAt(stops, step) {
        FirstStopIs(stops, n, step);
        trace := trace + [Stop];
        return;
      }
    }
    FirstStopIs(stops, n, n);
  }

  /** The first stop is the one with no stop before it. */
  lemma FirstStopIs(stops: seq<bool>, n: nat, s: nat)
    requires s <= n && forall s' :: 0 <= s' < s ==> !StopsAt(stops, s')
    requires s < n ==> StopsAt(stops, s)
    ensures FirstStop(stops, n) == s
  {
  }

  /** The body of the adversarial loop up to the stop check. */
  method AdversarialStep(p: Plan, step: int) returns (events: seq<Event>)
    ensures events == StepTrace(p, step)
  {
    var maxSteps := p.maxSteps;
    var critics := [];
    for i := 0 to RangeLen(p.discrimFreq)
      invariant critics == seq(i, _ => CriticBatch)
    {
      critics := critics + [CriticBatch];
    }
    var gen := GenBatch(Should(p.summaryFreq, step, maxSteps), Should(p.displayFreq, step, maxSteps));
    ghost var f := FiringAt(p, step);
    var actions := [];
    if Should(p.validateFreq, step, maxSteps) {
      actions := Validate(step, p.nval);
    }
    ghost var done := actions;
    if Should(p.summaryFreq, step, maxSteps) {
      actions := actions + [Summary];
    }
    assert actions == done + When(f.summary, [Summary]);
    done := actions;
    if Should(p.displayFreq, step, maxSteps) {
      actions := actions + [Append(TrainHtml, DisplayEntry(step))];
    }
    assert actions == done + When(f.display, [Append(TrainHtml, DisplayEntry(step))]);
    done := actions;
    if Should(p.progressFreq, step, maxSteps) {
      actions := actions + [Progress(step)];
    }
    assert actions == done + When(f.progress, [Progress(step)]);
    done := actions;
    if Should(p.saveFreq, step, maxSteps) {
      actions := actions + [Save];
    }
    assert actions == done + When(f.save, [Save]);
    assert actions == Actions(p.nval, step, f);
    events := critics + [gen] + actions;
  }

  /** Train mode after option handling: generator pretraining, one
      discriminator-pretraining call, then the adversarial loop. */
  method Train(p: Plan, stops: seq<bool>) returns (trace: seq<Event>)
    ensures trace == TrainTrace(p, stops)
  {
    trace := PretrainGenerator(p);
    trace := trace + [PreTrainD(p.preTrainDEpoch * p.ntrain)];
    var adversarial := AdversarialLoop(p, stops);
    trace := trace + adversarial;
  }
}
