/** The option namespace `a` of main.py: its argparse defaults, the JSON
    record it is saved as (options.json), and the three changes `run` makes
    to it in place — the random seed, the widths reloaded from a checkpoint
    in test mode, and the cadences rescaled from epochs to steps. */
module Options {
  import opened Format
  import opened Cadence

  datatype Mode = Train | Test | Export

  /** A JSON scalar, as options.json stores it. */
  datatype Value = VInt(i: int) | VReal(r: real) | VStr(s: string) | VBool(b: bool) | VNull

  /** The options the schedule reads. */
  datatype Options = Options(
    mode: Mode,
    outputDir: string,
    seed: Option<int>,
    checkpoint: Option<string>,
    checkStep: Option<string>,
    maxEpochs: Option<int>,
    summaryFreq: int,
    progressFreq: int,
    traceFreq: int,
    displayFreq: int,
    saveFreq: int,
    validateFreq: int,
    batchSize: int,
    ngf: Value,
    ndf: Value,
    discrimFreq: int,
    preTrainGEpoch: int,
    preTrainDEpoch: int)

  /** The namespace argparse builds when no option is given on the command
      line; `outputDir` is the directory chosen at start-up. */
  function Defaults(outputDir: string): (o: Options)
    ensures o.mode == Train && o.maxEpochs == None && o.checkpoint == None && o.seed == None
  {
    Options(Train, outputDir, None, None, None, None,
            10, 1, 0, 1, 10, 10, 1, VInt(64), VInt(64), 50, 50, 50)
  }

  function ModeText(m: Mode): (r: string)
  {
    match m
    case Train => "train"
    case Test => "test"
    case Export => "export"
  }

  function IntOrNull(v: Option<int>): (r: Value)
  {
    match v
    case None => VNull
    case Some(i) => VInt(i)
  }

  function StrOrNull(v: Option<string>): (r: Value)
  {
    match v
    case None => VNull
    case Some(s) => VStr(s)
  }

  /** `vars(a)`: the record options.json is written from. */
  function Vars(o: Options): (r: map<string, Value>)
  {
    map[
      "mode" := VStr(ModeText(o.mode)),
      "output_dir" := VStr(o.outputDir),
      "seed" := IntOrNull(o.seed),
      "checkpoint" := StrOrNull(o.checkpoint),
      "check_step" := StrOrNull(o.checkStep),
      "max_epochs" := IntOrNull(o.maxEpochs),
      "summary_freq" := VInt(o.summaryFreq),
      "progress_freq" := VInt(o.progressFreq),
      "trace_freq" := VInt(o.traceFreq),
      "display_freq" := VInt(o.displayFreq),
      "save_freq" := VInt(o.saveFreq),
      "validate_freq" := VInt(o.validateFreq),
      "batch_size" := VInt(o.batchSize),
      "ngf" := o.ngf,
      "ndf" := o.ndf,
      "discrim_freq" := VInt(o.discrimFreq),
      "pre_train_G_epoch" := VInt(o.preTrainGEpoch),
      "pre_train_D_epoch" := VInt(o.preTrainDEpoch)]
  }

  /** The options a test run takes from the checkpoint's record. */
  const LoadedKeys: set<string> := {"ngf", "ndf"}

  /** The cadences `run` rescales by the number of training batches. */
  const ScaledKeys: set<string> := {"summary_freq", "progress_freq", "save_freq", "display_freq", "validate_freq"}

  /** A seed drawn by `random.randint(0, 2**31 - 1)` replaces a missing one. */
  function WithSeed(o: Options, random: int): (r: Options)
  {
    if o.seed == None then o.(seed := Some(random)) else o
  }

  /** The value `key` takes when the checkpoint's record is loaded. */
  function Loaded(current: Value, record: map<string, Value>, key: string): (r: Value)
  {
    if key in record then record[key] else current
  }

  /** Test mode: every entry of the checkpoint's record whose key is `ngf`
      or `ndf` is copied into the namespace. */
  function Load(o: Options, record: map<string, Value>): (r: Options)
  {
    o.(ngf := Loaded(o.ngf, record, "ngf"), ndf := Loaded(o.ndf, record, "ndf"))
  }

  /** Every cadence counted in epochs becomes a count of steps. */
  function Scale(o: Options, ntrain: int): (r: Options)
  {
    o.(summaryFreq := o.summaryFreq * ntrain,
       progressFreq := o.progressFreq * ntrain,
       saveFreq := o.saveFreq * ntrain,
       displayFreq := o.displayFreq * ntrain,
       validateFreq := o.validateFreq * ntrain)
  }

  /** Drawing the seed keeps a seed given on the command line and otherwise
      fixes the drawn one; nothing else changes. */
  lemma SeedChosen(o: Options, random: int)
    ensures WithSeed(o, random).seed == if o.seed.Some? then o.seed else Some(random)
    ensures WithSeed(o, random).(seed := o.seed) == o
    ensures WithSeed(WithSeed(o, random), random) == WithSeed(o, random)
  {
  }

  /** Loading the checkpoint's record changes no entry of the saved record
      except `ngf` and `ndf`, which take the checkpoint's value when it has
      one. */
  lemma LoadChangesOnlyWidths(o: Options, record: map<string, Value>)
    ensures Vars(Load(o, record)).Keys == Vars(o).Keys
    ensures forall k :: k in Vars(o) && k !in LoadedKeys ==> Vars(Load(o, record))[k] == Vars(o)[k]
    ensures forall k :: k in LoadedKeys ==> Vars(Load(o, record))[k] == if k in record then record[k] else Vars(o)[k]
  {
  }

  /** A test run that loads the record a training run saved gets the
      training run's widths, and loading the same record twice changes
      nothing more. */
  lemma LoadSavedRecord(o: Options, trained: Options)
    ensures Load(o, Vars(trained)) == o.(ngf := trained.ngf, ndf := trained.ndf)
    ensures Load(Load(o, Vars(trained)), Vars(trained)) == Load(o, Vars(trained))
  {
  }

  /** Scaling multiplies the five cadences by `ntrain`. */
  lemma ScaleCadences(o: Options, ntrain: int)
    ensures forall k :: k in ScaledKeys ==> Vars(o)[k].VInt? && Vars(Scale(o, ntrain))[k] == VInt(Vars(o)[k].i * ntrain)
  {
  }

  /** Scaling keeps every other entry of the record; in particular
      `trace_freq` keeps its value. */
  lemma ScaleKeepsTheRest(o: Options, ntrain: int)
    ensures Vars(Scale(o, ntrain)).Keys == Vars(o).Keys
    ensures forall k :: k in Vars(o) && k !in ScaledKeys ==> Vars(Scale(o, ntrain))[k] == Vars(o)[k]
  {
  }

  /** With at least one training batch, a cadence stays switched on exactly
      when it was on; with none, every cadence is switched off. */
  lemma ScaledEnabled(freq: int, ntrain: nat)
    ensures ntrain > 0 ==> (freq * ntrain > 0 <==> freq > 0)
    ensures ntrain == 0 ==> freq * ntrain == 0
  {
    if ntrain > 0 && freq > 0 {
      AtLeastOnce(freq, ntrain);
    } else if ntrain > 0 && freq < 0 {
      AtLeastOnce(-freq, ntrain);
      assert freq * ntrain == -((-freq) * ntrain);
    }
  }

  /** The namespace `a`, updated in place by `run`. */
  class Namespace {
    var mode: Mode
    var outputDir: string
    var seed: Option<int>
    var checkpoint: Option<string>
    var checkStep: Option<string>
    var maxEpochs: Option<int>
    var summaryFreq: int
    var progressFreq: int
    var traceFreq: int
    var displayFreq: int
    var saveFreq: int
    var validateFreq: int
    var batchSize: int
    var ngf: Value
    var ndf: Value
    var discrimFreq: int
    var preTrainGEpoch: int
    var preTrainDEpoch: int

    /** The namespace's current attributes as a value. */
    function Snapshot(): (r: Options)
      reads this
    {
      Options(mode, outputDir, seed, checkpoint, checkStep, maxEpochs, summaryFreq, progressFreq, traceFreq,
              displayFreq, saveFreq, validateFreq, batchSize, ngf, ndf, discrimFreq, preTrainGEpoch, preTrainDEpoch)
    }

    /** The namespace `parser.parse_args()` returns. */
    constructor (o: Options)
      ensures Snapshot() == o
    {
      mode, outputDir, seed, checkpoint, checkStep, maxEpochs := o.mode, o.outputDir, o.seed, o.checkpoint, o.checkStep, o.maxEpochs;
      summaryFreq, progressFreq, traceFreq, displayFreq := o.summaryFreq, o.progressFreq, o.traceFreq, o.displayFreq;
      saveFreq, validateFreq, batchSize := o.saveFreq, o.validateFreq, o.batchSize;
      ngf, ndf, discrimFreq, preTrainGEpoch, preTrainDEpoch := o.ngf, o.ndf, o.discrimFreq, o.preTrainGEpoch, o.preTrainDEpoch;
    }

    method ChooseSeed(random: int)
      modifies this
      ensures Snapshot() == WithSeed(old(Snapshot()), random)
    {
      if seed == None {
        seed := Some(random);
      }
    }

    /** Walks the checkpoint's record and copies the entries named `ngf` or
        `ndf`. */
    method LoadCheckpointOptions(record: map<string, Value>)
      modifies this
      ensures Snapshot() == Load(old(Snapshot()), record)
    {
      var pending := record.Keys;
      while pending != {}
        invariant pending <= record.Keys
        invariant Snapshot() == Load(old(Snapshot()), Visited(record, pending))
        decreases pending
      {
        var key :| key in pending;
        if key in LoadedKeys {
          if key == "ngf" {
            ngf := record[key];
          } else {
            ndf := record[key];
          }
        }
        pending := pending - {key};
      }
      assert Visited(record, {}) == record;
    }

    method ScaleFrequencies(ntrain: int)
      modifies this
      ensures Snapshot() == Scale(old(Snapshot()), ntrain)
    {
      summaryFreq := summaryFreq * ntrain;
      progressFreq := progressFreq * ntrain;
      saveFreq := saveFreq * ntrain;
      displayFreq := displayFreq * ntrain;
      validateFreq := validateFreq * ntrain;
    }
  }

  /** The entries of `record` already walked while `pending` remain. */
  function Visited(record: map<string, Value>, pending: set<string>): (r: map<string, Value>)
  {
    map k | k in record && k !in pending :: record[k]
  }
}
