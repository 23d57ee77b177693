/** main.py `run`: the option handling around the schedule — the seed, the
    checkpoint's widths in test mode, the record written to options.json,
    the rescaled cadences, the checkpoint restore — and the choice between a
    single validation pass (test mode) and a training run. */
module Run {
  import opened Format
  import opened Options
  import opened Cadence
  import opened Schedule
  import opened ScheduleProperties
  import opened Exports

  /** The exceptions `run` raises before or instead of its work. */
  datatype RunError =
    | CheckpointRequired   // test mode without --checkpoint
    | OptionsMissing       // the checkpoint directory has no readable options.json
    | CheckStepMissing     // os.path.join(checkpoint, None)
    | MaxEpochsMissing     // None * ntrain

  /** What one call of `run` did. */
  datatype Outcome = Outcome(
    saved: Option<map<string, Value>>,   // the record written to output_dir/options.json
    restored: Option<string>,            // the path handed to saver.restore
    trace: seq<Event>,                   // the schedule's actions
    error: Option<RunError>)

  /** A POSIX path that starts at the root. */
  predicate Absolute(name: string)
  {
    |name| > 0 && name[0] == '/'
  }

  /** A directory path to which `os.path.join` adds no separator. */
  predicate Separated(dir: string)
  {
    dir == [] || dir[|dir| - 1] == '/'
  }

  /** `os.path.join(dir, name)` on POSIX. */
  function PathJoin(dir: string, name: string): (r: string)
  {
    if Absolute(name) then name
    else if Separated(dir) then dir + name
    else dir + "/" + name
  }

  /** The schedule's knobs for a namespace whose cadences are already scaled. */
  function PlanOf(o: Options, ntrain: nat, nval: nat, maxEpochs: int): (r: Plan)
  {
    Plan(ntrain, nval, maxEpochs * ntrain, o.preTrainGEpoch, o.preTrainDEpoch, o.discrimFreq,
         o.summaryFreq, o.displayFreq, o.validateFreq, o.progressFreq, o.saveFreq)
  }

  /** The final namespace and the outcome of `run` on namespace `o`, with
      `ntrain`/`nval` batches per split, `random` as the drawn seed, `record`
      as the checkpoint's options.json (None when it cannot be read) and
      `stops` as the supervisor's answers. */
  function RunSpec(o: Options, ntrain: nat, nval: nat, random: int, record: Option<map<string, Value>>,
                   stops: seq<bool>): (r: (Options, Outcome))
  {
    var seeded := WithSeed(o, random);
    if seeded.mode == Test && seeded.checkpoint == None then
      (seeded, Outcome(None, None, [], Some(CheckpointRequired)))
    else if seeded.mode == Test && record == None then
      (seeded, Outcome(None, None, [], Some(OptionsMissing)))
    else
      var loaded := if seeded.mode == Test then Load(seeded, record.value) else seeded;
      var saved := Some(Vars(loaded));
      var scaled := Scale(loaded, ntrain);
      if scaled.checkpoint.Some? && scaled.checkStep == None then
        (scaled, Outcome(saved, None, [], Some(CheckStepMissing)))
      else
        var restored := if scaled.checkpoint.Some? then Some(PathJoin(scaled.checkpoint.value, scaled.checkStep.value)) else None;
        if scaled.mode == Test then
          (scaled, Outcome(saved, restored, ValidateTrace(-1, nval), None))
        else if scaled.maxEpochs == None then
          (scaled, Outcome(saved, restored, [], Some(MaxEpochsMissing)))
        else
          (scaled, Outcome(saved, restored, TrainTrace(PlanOf(scaled, ntrain, nval, scaled.maxEpochs.value), stops), None))
  }

  method Run(ns: Namespace, ntrain: nat, nval: nat, random: int, record: Option<map<string, Value>>,
             stops: seq<bool>) returns (out: Outcome)
    modifies ns
    ensures (ns.Snapshot(), out) == RunSpec(old(ns.Snapshot()), ntrain, nval, random, record, stops)
  {
    ns.ChooseSeed(random);
    if ns.mode == Test {
      if ns.checkpoint == None {
        return Outcome(None, None, [], Some(CheckpointRequired));
      }
      if record == None {
        return Outcome(None, None, [], Some(OptionsMissing));
      }
      ns.LoadCheckpointOptions(record.value);
    }
    var saved := Vars(ns.Snapshot());
    ns.ScaleFrequencies(ntrain);
    var restored := None;
    if ns.checkpoint.Some? {
      if ns.checkStep == None {
        return Outcome(Some(saved), None, [], Some(CheckStepMissing));
      }
      restored := Some(PathJoin(ns.checkpoint.value, ns.checkStep.value));
    }
    if ns.mode == Test {
      var trace := Validate(-1, nval);
      return Outcome(Some(saved), restored, trace, None);
    }
    if ns.maxEpochs == None {
      return Outcome(Some(saved), restored, [], Some(MaxEpochsMissing));
    }
    var plan := Plan(ntrain, nval, ns.maxEpochs.value * ntrain, ns.preTrainGEpoch, ns.preTrainDEpoch, ns.discrimFreq,
                     ns.summaryFreq, ns.displayFreq, ns.validateFreq, ns.progressFreq, ns.saveFreq);
    var trace := Schedule.Train(plan, stops);
    out := Outcome(Some(saved), restored, trace, None);
  }

  /** The restored path names the step file inside the checkpoint
      directory: it ends with the step's name; an absolute name is the
      whole path; a relative name follows the directory with exactly one
      separator between the two, none added when the directory already
      ends with one. */
  lemma PathJoinParts(dir: string, name: string)
    ensures var path := PathJoin(dir, name);
      |name| <= |path| && path[|path| - |name|..] == name
    ensures var path := PathJoin(dir, name);
      !Absolute(name) ==>
        |dir| <= |path| && path[..|dir|] == dir &&
        (dir != [] ==> |path| - |name| >= 1 && path[|path| - |name| - 1] == '/')
    ensures !Absolute(name) && Separated(dir) ==>
      |PathJoin(dir, name)| == |dir| + |name|
    ensures !Absolute(name) && !Separated(dir) ==>
      |PathJoin(dir, name)| == |dir| + 1 + |name|
    ensures Absolute(name) ==> PathJoin(dir, name) == name
  {
    var path := PathJoin(dir, name);
    if !Absolute(name) {
      if Separated(dir) {
        assert path == dir + name;
        assert path[|path| - |name|..] == name;
        assert path[..|dir|] == dir;
      } else {
        assert path == dir + "/" + name;
        assert path[|path| - |name|..] == name;
        assert path[..|dir|] == dir;
        assert path[|dir|] == '/';
      }
    }
  }

  /** `run` fails in exactly four ways, each under exactly one condition
      on the namespace it is given; a failing run does nothing on the
      schedule, and options.json is written unless the test-mode checks
      fail first. */
  lemma RunErrors(o: Options, ntrain: nat, nval: nat, random: int, record: Option<map<string, Value>>, stops: seq<bool>)
    ensures var out := RunSpec(o, ntrain, nval, random, record, stops).1;
      (out.error == Some(CheckpointRequired) <==> o.mode == Test && o.checkpoint == None) &&
      (out.error == Some(OptionsMissing) <==> o.mode == Test && o.checkpoint.Some? && record == None) &&
      (out.error == Some(CheckStepMissing) <==>
        o.checkpoint.Some? && o.checkStep == None && (o.mode == Test ==> record.Some?)) &&
      (out.error == Some(MaxEpochsMissing) <==>
        o.mode != Test && (o.checkpoint.Some? ==> o.checkStep.Some?) && o.maxEpochs == None)
    ensures var out := RunSpec(o, ntrain, nval, random, record, stops).1;
      (out.error.Some? ==> out.trace == []) &&
      (out.error.Some? && out.error != Some(MaxEpochsMissing) ==> out.restored == None) &&
      (out.saved.None? <==> out.error == Some(CheckpointRequired) || out.error == Some(OptionsMissing))
  {
  }

  /** With every option left at its default, `run` writes the seeded
      namespace and then fails on the missing `--max_epochs`, before any
      training. */
  lemma DefaultsNeedMaxEpochs(outputDir: string, ntrain: nat, nval: nat, random: int,
                              record: Option<map<string, Value>>, stops: seq<bool>)
    ensures var out := RunSpec(Defaults(outputDir), ntrain, nval, random, record, stops).1;
      out.error == Some(MaxEpochsMissing) && out.trace == [] && out.restored == None &&
      out.saved == Some(Vars(WithSeed(Defaults(outputDir), random)))
  {
  }

  /** A test run with a checkpoint and a step: it restores the step file
      from the checkpoint directory, takes the widths from the
      checkpoint's record and nothing else, writes that namespace before
      scaling, and performs a single validation pass under step -1 with
      nothing else on the schedule. */
  lemma TestRun(o: Options, ntrain: nat, nval: nat, random: int, record: map<string, Value>, stops: seq<bool>)
    requires o.mode == Test && o.checkpoint.Some? && o.checkStep.Some?
    ensures var (final, out) := RunSpec(o, ntrain, nval, random, Some(record), stops);
      out.error == None &&
      out.restored == Some(PathJoin(o.checkpoint.value, o.checkStep.value)) &&
      out.saved == Some(Vars(Load(WithSeed(o, random), record))) &&
      final == Scale(Load(WithSeed(o, random), record), ntrain) &&
      final.ngf == Loaded(o.ngf, record, "ngf") && final.ndf == Loaded(o.ndf, record, "ndf")
    ensures var out := RunSpec(o, ntrain, nval, random, Some(record), stops).1;
      (forall f :: Count(out.trace, f) == if f == KVal || f == KValidateExport then nval else 0) &&
      (forall e :: e in out.trace && e.Append? ==> e.index == ValidateHtml && e.entry.ExampleEntry? && e.entry.step == -1)
  {
    var out := RunSpec(o, ntrain, nval, random, Some(record), stops).1;
    assert out.trace == ValidateTrace(-1, nval);
    forall f: EventKind
      ensures Count(out.trace, f) == if f == KVal || f == KValidateExport then nval else 0
    {
      ValidateCounts(-1, nval, f);
    }
    ValidateEvents(-1, nval);
  }

  /** Whatever `run` does, no two exports it makes name the same image file:
      a test run's validation pass and a training run's pretraining, validation
      and display exports all differ in their file names. */
  lemma RunFilesDistinct(o: Options, ntrain: nat, nval: nat, random: int, record: Option<map<string, Value>>,
                         stops: seq<bool>)
    ensures DistinctFiles(RunSpec(o, ntrain, nval, random, record, stops).1.trace)
  {
    var (final, out) := RunSpec(o, ntrain, nval, random, record, stops);
    ValidateFilesDistinct(-1, nval);
    if final.maxEpochs.Some? {
      TrainFilesDistinct(PlanOf(final, ntrain, nval, final.maxEpochs.value), stops);
    }
  }

  /** A train- or export-mode run that raises nothing: the record written
      is the seeded namespace as given, the cadences of the final namespace
      are those of the record multiplied by `ntrain`, and the schedule is
      that of the final namespace over `max_epochs * ntrain` steps. */
  lemma TrainRun(o: Options, ntrain: nat, nval: nat, random: int, record: Option<map<string, Value>>, stops: seq<bool>)
    requires o.mode != Test && (o.checkpoint.Some? ==> o.checkStep.Some?) && o.maxEpochs.Some?
    ensures var (final, out) := RunSpec(o, ntrain, nval, random, record, stops);
      out.error == None &&
      out.saved == Some(Vars(WithSeed(o, random))) &&
      final == Scale(WithSeed(o, random), ntrain) &&
      out.trace == TrainTrace(PlanOf(final, ntrain, nval, o.maxEpochs.value), stops) &&
      PlanOf(final, ntrain, nval, o.maxEpochs.value).maxSteps == o.maxEpochs.value * ntrain
  {
  }

  /** The record keeps the cadences in epochs while the namespace the
      schedule reads has them in steps. */
  lemma SavedUnscaled(o: Options, ntrain: nat, nval: nat, random: int, record: Option<map<string, Value>>, stops: seq<bool>)
    requires o.mode != Test && (o.checkpoint.Some? ==> o.checkStep.Some?) && o.maxEpochs.Some?
    ensures var (final, out) := RunSpec(o, ntrain, nval, random, record, stops);
      out.saved.Some? &&
      forall k :: k in ScaledKeys ==>
        (k in out.saved.value && out.saved.value[k].VInt? && Vars(final)[k] == VInt(out.saved.value[k].i * ntrain))
  {
    TrainRun(o, ntrain, nval, random, record, stops);
    ScaleCadences(WithSeed(o, random), ntrain);
  }

  /** A training run draws `discrim_freq + 1` training batches per
      adversarial step that runs, and pretrains the generator on `ntrain`
      batches per pretraining epoch. */
  lemma TrainRunBatches(o: Options, ntrain: nat, nval: nat, random: int, record: Option<map<string, Value>>, stops: seq<bool>)
    requires o.mode != Test && (o.checkpoint.Some? ==> o.checkStep.Some?) && o.maxEpochs.Some?
    ensures var out := RunSpec(o, ntrain, nval, random, record, stops).1;
      var p := PlanOf(Scale(WithSeed(o, random), ntrain), ntrain, nval, o.maxEpochs.value);
      TrainBatches(out.trace) == StepsRun(p, stops) * (RangeLen(o.discrimFreq) + 1) &&
      PretrainGTotal(out.trace) == RangeLen(o.preTrainGEpoch) * ntrain
  {
    TrainRun(o, ntrain, nval, random, record, stops);
    TrainCounts(PlanOf(Scale(WithSeed(o, random), ntrain), ntrain, nval, o.maxEpochs.value), stops);
  }

  /** Export mode runs exactly the training schedule of train mode; only
      the recorded mode differs. */
  lemma ExportModeTrains(o: Options, ntrain: nat, nval: nat, random: int, record: Option<map<string, Value>>, stops: seq<bool>)
    requires o.mode == Export
    ensures var (fe, oe) := RunSpec(o, ntrain, nval, random, record, stops);
      var (ft, ot) := RunSpec(o.(mode := Train), ntrain, nval, random, record, stops);
      fe == ft.(mode := Export) && oe.trace == ot.trace && oe.error == ot.error && oe.restored == ot.restored &&
      oe.saved.Some? && ot.saved.Some? &&
      oe.saved.value == ot.saved.value["mode" := VStr("export")]
  {
    var seeded := WithSeed(o, random);
    assert WithSeed(o.(mode := Train), random) == seeded.(mode := Train);
    assert Vars(seeded) == Vars(seeded.(mode := Train))["mode" := VStr("export")];
  }

  /** The unscaled cadence that governs events of kind `f`. */
  function EpochFreq(o: Options, f: EventKind): (r: int)
  {
    match f
    case KSave => o.saveFreq
    case KSummary => o.summaryFreq
    case KProgress => o.progressFreq
    case KDisplay => o.displayFreq
    case _ => o.validateFreq
  }

  /** A cadence counts epochs: when no stop is signalled, a run of
      `max_epochs` epochs saves (records a summary, reports progress,
      displays) `max_epochs / freq` times, and once more at the very last
      step when `freq` does not divide `max_epochs`. */
  lemma CadencePerEpochs(o: Options, ntrain: nat, nval: nat, random: int, record: Option<map<string, Value>>,
                         stops: seq<bool>, f: EventKind)
    requires o.mode != Test && (o.checkpoint.Some? ==> o.checkStep.Some?)
    requires o.maxEpochs.Some? && o.maxEpochs.value > 0 && ntrain > 0
    requires f in {KSave, KSummary, KProgress, KDisplay} && EpochFreq(o, f) > 0
    requires forall s :: 0 <= s < o.maxEpochs.value * ntrain ==> !StopsAt(stops, s)
    ensures var out := RunSpec(o, ntrain, nval, random, record, stops).1;
      var epochs, freq := o.maxEpochs.value, EpochFreq(o, f);
      Count(out.trace, f) == epochs / freq + (if epochs % freq != 0 then 1 else 0)
  {
    TrainRun(o, ntrain, nval, random, record, stops);
    var p := PlanOf(Scale(WithSeed(o, random), ntrain), ntrain, nval, o.maxEpochs.value);
    assert CadenceFreq(p, f) == EpochFreq(o, f) * ntrain;
    EpochCadence(p, stops, f, o.maxEpochs.value, EpochFreq(o, f));
  }

  /** The schedule-level half of `CadencePerEpochs`. */
  lemma EpochCadence(p: Plan, stops: seq<bool>, f: EventKind, epochs: int, freq: int)
    requires f in {KSave, KSummary, KProgress, KDisplay}
    requires epochs > 0 && freq > 0 && p.ntrain > 0
    requires p.maxSteps == epochs * p.ntrain && CadenceFreq(p, f) == freq * p.ntrain
    requires forall s :: 0 <= s < p.maxSteps ==> !StopsAt(stops, s)
    ensures Count(TrainTrace(p, stops), f) == epochs / freq + (if epochs % freq != 0 then 1 else 0)
  {
    AtLeastOnce(epochs, p.ntrain);
    assert StepsRun(p, stops) == p.maxSteps;
    AdversarialOnly(p, stops, f);
    AdversarialCount(p, stops, f);
    CadenceOf(p, p.maxSteps, f);
    FiresPerEpochs(freq, p.ntrain, epochs);
  }

  /** A test run that restores a checkpoint written by a training run reads
      back the widths that run was given. */
  lemma TestAfterTrain(trained: Options, ntrain: nat, nval: nat, random: int, record: Option<map<string, Value>>,
                       stops: seq<bool>, o: Options, random2: int)
    requires trained.mode != Test && (trained.checkpoint.Some? ==> trained.checkStep.Some?) && trained.maxEpochs.Some?
    requires o.mode == Test && o.checkpoint.Some? && o.checkStep.Some?
    ensures var saved := RunSpec(trained, ntrain, nval, random, record, stops).1.saved;
      saved.Some? &&
      var (final, out) := RunSpec(o, ntrain, nval, random2, saved, stops);
      out.error == None && final.ngf == trained.ngf && final.ndf == trained.ndf
  {
    TrainRun(trained, ntrain, nval, random, record, stops);
    var saved := Vars(WithSeed(trained, random));
    TestRun(o, ntrain, nval, random2, saved, stops);
    LoadSavedRecord(WithSeed(o, random2), WithSeed(trained, random));
  }
}

