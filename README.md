# Training-control schedule of the layout-to-room GAN trainer

This project models the control logic of `run()` in `main.py`: everything the
trainer decides on its own, as opposed to the numeric work it hands to
TensorFlow. The model covers:

- the option namespace `a`: its defaults, the seed drawn when none is given,
  the widths (`ngf`, `ndf`) a test run takes from the checkpoint's
  `options.json`, the record written to the output directory's
  `options.json`, and the five cadences multiplied in place by the number of
  training batches `loader.ntrain`;
- the errors `run` raises: test mode without a checkpoint, an unreadable
  checkpoint record, a checkpoint without `--check_step`
  (`os.path.join(checkpoint, None)`), and a training run without
  `--max_epochs` (`None * ntrain`);
- the schedule, as the trace of the actions it performs: generator
  pretraining with its every-tenth-epoch image export under a negative step,
  one discriminator-pretraining call, and the adversarial loop
  (`discrim_freq` critic batches, one generator batch, then validation,
  summary, display, progress and save when `should` fires for each, then the
  supervisor's stop check);
- `validate(g)`, the zero-padded image names (`'%010d_%03d_<kind>.jpg'`,
  `'%010d_<kind>.jpg'`) and a parser that reads them back;
- `append_index`: the header written when an index page is created and the
  row appended per export, with a parser that reads a page back into its
  rows.

TensorFlow, the model and the data loader are outside the model. A training
operation is an event of the trace (`PreTrainG(count, withImages)`,
`PreTrainD(count)`, `CriticBatch`, `GenBatch`, `ValBatch`, `Append`, `Summary`,
`Progress`, `Save`, `Stop`). The run takes its environment as parameters:

- `ntrain` and `nval`, the batch counts of the two splits;
- `random`, the value `random.randint` returns;
- `record`, the checkpoint's `options.json`, or none when it cannot be read;
- `stops`, the answers of `sv.should_stop()`.

Modules, one file each:

- `format.dfy` (`Format`): Python's `'%0Nd'` and `'%d'`, with a parser.
- `image_names.dfy` (`ImageNames`): image file names, the names record passed
  to `append`, and the name parser.
- `html_index.dfy` (`HtmlIndex`): the index page text, the `IndexFiles`
  class whose `AppendIndex` writes it piece by piece, and the page parser.
- `cadence.dfy` (`Cadence`): `should(freq)` and how often it fires.
- `options.dfy` (`Options`): the namespace class and its in-place updates.
- `schedule.dfy` (`Schedule`): the event trace and the loop methods, each
  proved to produce the trace a recursive specification function describes.
- `schedule_properties.dfy` (`ScheduleProperties`): counting, ordering and
  export properties of those traces.
- `exports.dfy` (`Exports`): the order of a run's exports, and that no
  image file is written twice.
- `pages.dfy` (`Pages`): the rows a run's trace leaves in its index pages.
- `run.dfy` (`Run`): `run` itself, as a method on the namespace proved
  against the function `RunSpec`.

Behaviour of `run` that a reader might not expect:

- The code checks `sv.should_stop()` at the end of a step, after that step's
  save, not at the top of the next step.
- `--mode export` runs exactly the training schedule; only `test` is treated
  differently.
- The five cadences count epochs. The code multiplies each of them by
  `ntrain` once, whatever the help texts say about steps.
- `'%010d' % -5` is `-000000005`, so as text the names of pretraining
  exports sort in reverse order of their epochs (`-000000005` before
  `-000000049`). The model proves that the steps increase, not that the
  file names sort chronologically.
- A checkpoint restore does not skip pretraining: a resumed training run
  pretrains from epoch 0 again.

## Model

| member | source | states |
|---|---|---|
| Format.PadRoundTrip | main.py:199-201 | `'%0Nd' % n` is read back to `n` for every integer, negative ones included, and every width |
| Format.PadLength | main.py:199-201 | the padded text is at least `width` long; it is exactly `width` long when the number fits, and the plain decimal text otherwise |
| Format.PadInjective | main.py:92-94 | different numbers never format to the same text, whatever the widths |
| Format.PadAlphabet | main.py:92-94 | a formatted number is decimal digits with a leading minus sign exactly when it is negative |
| ImageNames.FileNameRoundTrip | main.py:92-94 | every example or display image name the program builds parses back to its step, index and kind |
| ImageNames.FileNameInjective | main.py:199-201 | two image names are equal only for the same step, index and kind |
| ImageNames.EntryNamesInjective | main.py:246-251 | two different entries never receive the same names record |
| Cadence.ShouldCharacterised | main.py:212-213 | `should` never fires for `freq <= 0`; for `freq > 0` it fires on the last step and otherwise exactly when `(step + 1) % freq == 0` |
| Cadence.FiresDisabled | main.py:212-213 | a non-positive frequency fires on no step at all |
| Cadence.FiresBeforeLast | main.py:210-213 | before the last step, a positive `freq` has fired `k / freq` times in the first `k` steps |
| Cadence.FiresPerRun | main.py:210-213 | over `max_steps` steps a positive `freq` fires `max_steps / freq` times, plus one when `freq` does not divide `max_steps` |
| Cadence.FiresPerEpochs | main.py:167-171 | with both cadence and run length multiplied by `ntrain`, the count is `epochs / freq` plus one when `freq` does not divide `epochs` |
| Options.Defaults | main.py:22-48 | the argparse defaults: train mode, no seed, checkpoint or `max_epochs` |
| Options.SeedChosen | main.py:113-114 | a given seed is kept, a missing one becomes the drawn value; nothing else changes and drawing twice changes nothing more |
| Options.LoadChangesOnlyWidths | main.py:126-133 | loading the checkpoint's record changes only `ngf` and `ndf`, each to the record's value when it has one |
| Options.LoadSavedRecord | main.py:126-139 | loading a record written by another run gives exactly that run's widths, and loading it again changes nothing |
| Options.ScaleCadences | main.py:167-171 | the five cadences of the written record are multiplied by `ntrain` |
| Options.ScaleKeepsTheRest | main.py:167-171 | every other entry, `trace_freq` included, keeps its value |
| Options.ScaledEnabled | main.py:167-171 | with `ntrain > 0` a cadence stays on exactly when it was on; with `ntrain == 0` every cadence is off |
| Options.Namespace.constructor | main.py:51 | the namespace holds the parsed options |
| Options.Namespace.ChooseSeed | main.py:113-114 | the namespace afterwards is `WithSeed` of the one before |
| Options.Namespace.LoadCheckpointOptions | main.py:126-133 | walking the record's entries in any order leaves the namespace equal to `Load` of the one before |
| Options.Namespace.ScaleFrequencies | main.py:167-171 | the namespace afterwards is `Scale` of the one before |
| HtmlIndex.AllCells | main.py:76-77 | a row's image cells are those of the inputs, outputs and targets, in that order |
| HtmlIndex.IndexFiles.AppendIndex | main.py:65-79 | the page `filename` becomes its old text, or the header when it did not exist, followed by the row; no other page changes |
| HtmlIndex.WriteRow | main.py:74-78 | writing `<tr>`, the step cell, the three image cells and `</tr>` appends exactly `Row(info)` |
| HtmlIndex.WriteCells | main.py:76-77 | the loop over the three kinds appends exactly their three cells |
| HtmlIndex.AppendAllText | main.py:65-79 | after one or more appends a page holds the header once, or its old text, followed by the rows in append order |
| HtmlIndex.AppendAllOthers | main.py:65-79 | appending to one page leaves every other page as it was |
| HtmlIndex.CellRoundTrip | main.py:77 | an image cell reads back to its name when the name has no quote |
| HtmlIndex.CellsRoundTrip | main.py:76-78 | the three cells and `</tr>` read back to the names record |
| HtmlIndex.RowRoundTrip | main.py:74-78 | a row reads back to its names record, whatever text follows it, for quote-free names, which is every name the program builds (`EntryRowsReadable`) |
| HtmlIndex.RowsRoundTrip | main.py:74-78 | any sequence of rows reads back to its names records, in order, for quote-free names, which is every name the program builds (`EntryRowsReadable`) |
| HtmlIndex.IndexRoundTrip | main.py:65-79 | a page created with the header and any rows reads back to those rows, for quote-free names, which is every name the program builds (`EntryRowsReadable`) |
| HtmlIndex.FileNameQuotable | main.py:92-94 | no image name the program builds contains a quote |
| HtmlIndex.EntryRowsReadable | main.py:246-251 | every names record the program exports can be read back from its row |
| Schedule.Validate | main.py:82-96 | `validate(g)` fetches example `i` and exports it under step `g`, for `i` in `0 .. nval-1`, in order |
| Schedule.FirstStop | main.py:265-266 | the first step that sees a stop, or the run length: no step before it stops |
| Schedule.PretrainGenerator | main.py:190-205 | generator pretraining produces the epoch-by-epoch trace of `PretrainGTrace` |
| Schedule.AdversarialStep | main.py:215-263 | one loop body produces the critic batches, the generator batch and the fired actions in source order |
| Schedule.AdversarialLoop | main.py:210-266 | the loop runs every step up to and including the first one that sees a stop, then stops |
| Schedule.Train | main.py:186-266 | a training run is generator pretraining, one discriminator-pretraining call, then the adversarial loop |
| ScheduleProperties.ValidateEvents | main.py:88-96 | a validation pass is `2 * nval` events, each a split-1 batch or an export to validate.html under step `g` |
| ScheduleProperties.ValidateCounts | main.py:88-96 | a validation pass draws `nval` split-1 batches and exports `nval` examples, and nothing else |
| ScheduleProperties.CriticsCount | main.py:218-220 | the critic loop draws `discrim_freq` critic batches and nothing else |
| ScheduleProperties.ActionsCount | main.py:238-263 | the cadence actions of a step count `nval` validation batches and exports when validation fires, and one summary, display, progress report and save when each fires |
| ScheduleProperties.StepCount | main.py:215-263 | a step counts `discrim_freq` critic batches, one generator batch, and its fired actions |
| ScheduleProperties.ActionsRanks | main.py:238-263 | the cadence actions run as validation, summary, display, progress, save |
| ScheduleProperties.StepOrdered | main.py:215-263 | every critic batch comes before the generator batch, which comes before every cadence action |
| ScheduleProperties.StepFetchesWhatItUses | main.py:227-251 | the generator batch fetches the summary and the images exactly when the step records or displays them; validation exports use the loop step |
| ScheduleProperties.AdvStepsCount | main.py:210-263 | the counts of `k` completed steps are the sum of their per-step counts |
| ScheduleProperties.AdvStepsBatches | main.py:210-236 | `k` steps draw `k * discrim_freq` critic batches and `k` generator batches |
| ScheduleProperties.AdvStepsOnlyTrain | main.py:210-263 | the adversarial steps never pretrain, never export pretraining images and never stop by themselves |
| ScheduleProperties.CadenceOf | main.py:227-263 | saves, summaries, progress reports and displays each happen on exactly the steps where `should` fires for their cadence |
| ScheduleProperties.ValidationsOf | main.py:238-239 | each validation that fires draws and exports `nval` examples |
| ScheduleProperties.AdversarialCount | main.py:210-266 | the adversarial phase counts the steps that ran, plus one `Stop` when a stop was seen |
| ScheduleProperties.AdversarialBatches | main.py:210-236 | the phase draws `discrim_freq + 1` training batches per step that ran |
| ScheduleProperties.StepsRunCharacterised | main.py:265-266 | without a stop every step runs; otherwise the steps up to and including the first one that sees a stop |
| ScheduleProperties.CadencePerRun | main.py:210-263 | without a stop, a positive cadence fires `max_steps / freq` times, plus one when `freq` does not divide `max_steps` |
| ScheduleProperties.DisabledCadence | main.py:212-213 | a non-positive cadence never fires in the whole phase |
| ScheduleProperties.DisabledValidation | main.py:238-239 | with a non-positive `validate_freq` the phase draws no validation batch and exports nothing to validate.html |
| ScheduleProperties.DisabledAction | main.py:241-263 | with a non-positive cadence the phase makes no summary, display, progress report or save of that kind |
| ScheduleProperties.StopOnlyAtEnd | main.py:265-266 | `Stop` happens once when a stop was signalled and never otherwise |
| ScheduleProperties.SaveEndsStep | main.py:261-266 | a step that saves ends with the save |
| ScheduleProperties.StopAfterSave | main.py:261-266 | the stop comes last, right after the stopping step's save when that step saves |
| ScheduleProperties.ExportEpochShape | main.py:195-203 | an exporting epoch alternates one single-batch pretraining call and the export of example `j` |
| ScheduleProperties.ExportEpochCounts | main.py:195-203 | an exporting epoch makes `ntrain` single-batch calls, exports `ntrain` examples and pretrains on `ntrain` batches in all |
| ScheduleProperties.EpochCounts | main.py:190-205 | every pretraining epoch hands `ntrain` batches to `pre_train_G`, exporting `ntrain` examples exactly when `e % 10 == 0` or it is the last epoch |
| ScheduleProperties.PretrainGBatches | main.py:190-205 | `k` pretraining epochs hand `k * ntrain` batches to `pre_train_G` |
| ScheduleProperties.PretrainGExports | main.py:190-205 | they export `ntrain` examples per exporting epoch |
| ScheduleProperties.PretrainGOnly | main.py:190-205 | they do nothing besides pretraining the generator and exporting |
| ScheduleProperties.ExportedBeforeLast | main.py:191 | before the last epoch, epochs 0, 10, 20, ... export: `(k + 9) / 10` of the first `k` |
| ScheduleProperties.ExportedPerRun | main.py:191 | a run of `E >= 1` epochs exports `(E + 8) / 10 + 1` of them |
| ScheduleProperties.ExportEpochEntries | main.py:195-203 | an exporting epoch exports examples `0 .. ntrain-1` under its prefix, in increasing order |
| ScheduleProperties.EpochEntries | main.py:190-203 | epoch `e` exports only under prefix `-pre_train_G_epoch + e` |
| ScheduleProperties.ConcatIncrease | main.py:190-205 | exports of a later epoch come after those of an earlier one |
| ScheduleProperties.PretrainGEntries | main.py:190-205 | pretraining exports strictly increase and stay within `[-pre_train_G_epoch, 0)` |
| ScheduleProperties.PretrainExportsDistinct | main.py:197-203 | every pretraining export has a negative step, and no two share their image names |
| ScheduleProperties.PretrainEndsWithLastExport | main.py:190-203 | the last pretraining action is the export of the last example under step -1 |
| ScheduleProperties.TrainCounts | main.py:188-236 | a training run pretrains on `ntrain` batches per epoch, calls `pre_train_D` once, and draws `discrim_freq + 1` training batches per adversarial step that ran |
| ScheduleProperties.PretrainGOnlyPretrains | main.py:190-205 | generator pretraining draws no adversarial batch and does not pretrain the discriminator |
| ScheduleProperties.AdversarialNeverPretrains | main.py:210-266 | the adversarial phase never pretrains |
| ScheduleProperties.TrainPhases | main.py:190-210 | all generator pretraining comes before the single `pre_train_D` call, and every adversarial batch after it |
| ScheduleProperties.AdversarialOnly | main.py:190-266 | besides pretraining, every action of a training run happens in the adversarial phase |
| Exports.IncreasingDistinct | main.py:92-94 | exports in strictly increasing order of step, then example index, then display, never name the same image file twice |
| Exports.ValidateIncrease | main.py:88-96 | `validate(g)` exports examples `0 .. n-1` under step `g`, in strictly increasing order |
| Exports.ActionsIncrease | main.py:238-251 | a step's cadence actions export its validation examples in order, then its displayed images, all under the loop step |
| Exports.StepIncrease | main.py:215-263 | a whole adversarial step exports in increasing order under its own step |
| Exports.AdvIncrease | main.py:210-263 | `k` adversarial steps export in increasing order under steps `0 .. k-1` |
| Exports.AdversarialIncrease | main.py:210-266 | the adversarial phase exports in increasing order under the steps that ran |
| Exports.TrainIncrease | main.py:190-266 | a training run's pretraining exports, under negative steps, come before the adversarial ones, and all increase |
| Exports.TrainFilesDistinct | main.py:190-266 | no image file is written twice in one training run |
| Exports.ValidateFilesDistinct | main.py:88-96 | no image file is written twice by one validation pass |
| Pages.ValidatePage | main.py:88-96 | `validate(g)` appends examples `0 .. n-1` under step `g` to validate.html, in order, and nothing to train.html |
| Pages.NamesReadable | main.py:99-106 | every names record handed to `append` can be read back from its row |
| Pages.PageReadsBack | main.py:99-106 | a page a run creates reads back to exactly the records the run appended to it, in order |
| Pages.TestRunPage | main.py:184-185 | the validation page of a fresh test run lists the `nval` validation examples under step -1, in order |
| Run.Run | main.py:109-266 | `run` changes the namespace and produces the record, restore path, trace and error `RunSpec` describes |
| Run.PathJoinParts | main.py:178-182 | the restored path ends with the step name; an absolute name is the whole path; for a relative name it is exactly the checkpoint directory, one separator unless the directory already ends with one, then the name |
| Run.RunErrors | main.py:123-188 | each of the four errors happens exactly under its condition on the options; a failing run runs no schedule, and the record is written unless a test-mode check fails |
| Run.DefaultsNeedMaxEpochs | main.py:22-48 | with every option at its argparse default, `run` writes the seeded record and then fails with the missing `max_epochs`, with no restore and no schedule |
| Run.TestRun | main.py:123-185 | a test run restores the step file, takes only the widths from the record, writes the unscaled namespace, and performs one validation pass under step -1 and nothing else |
| Run.TrainRun | main.py:167-188 | a train or export run writes the seeded namespace as given, ends with the cadences scaled, and runs the schedule over `max_epochs * ntrain` steps |
| Run.SavedUnscaled | main.py:138-171 | the written record keeps the cadences in epochs while the namespace the schedule reads has them multiplied by `ntrain` |
| Run.TrainRunBatches | main.py:188-236 | a training run pretrains on `ntrain` batches per epoch and draws `discrim_freq + 1` training batches per adversarial step that ran |
| Run.ExportModeTrains | main.py:184-186 | export mode runs exactly the schedule of train mode; only the recorded mode differs |
| Run.CadencePerEpochs | main.py:167-171 | without a stop, a cadence of `freq` epochs fires `max_epochs / freq` times, plus one at the last step when `freq` does not divide `max_epochs` |
| Run.EpochCadence | main.py:210-213 | the same count for a schedule whose run length and cadence are both multiples of `ntrain` |
| Run.RunFilesDistinct | main.py:109-266 | whatever `run` does, test or training run or error, no two of its exports name the same image file |
| Run.TestAfterTrain | main.py:126-139 | a test run restoring a checkpoint written by a training run gets the widths that run was given |

## Left out

- TensorFlow: the model, graph construction, sessions, summaries, histograms, `tf.train.Supervisor` and `Saver`. These are foreign library calls. The trace only names them; the restore records the path it would load.
- `Model` and `Loader` internals (model.py, data_loader.py) and the image drawing functions (draw/*). These files are not part of this model. `pre_train_G`, `pre_train_D` and `next_batch` are events that carry their arguments; the model does not say how many batches the pretraining calls consume internally.
- The progress report's arithmetic (main.py:253-259). It is floating point over wall-clock time; the `Progress` event records only the step.
- File and directory I/O. This covers `os.makedirs`, the output directory's default name built from the clock (main.py:53-60), image writing, and the JSON text of `options.json` with its `sort_keys`/`indent` layout. Index pages are a map from file name to text; `options.json` is a map from option name to value.
- Options.Vars: it omits the six float hyperparameters (`lr_discriminator`, `lr_generator`, `beta1`, `lam`, `l1_weight`, `gan_weight`). They do not affect the schedule.
- The TensorFlow version check, argparse's parsing of the command line, and the seeding of the three random generators and the creation of the output directory (main.py:110-121). These are environment plumbing. The drawn seed is a parameter.
- Options.Namespace.ChooseSeed: does not restrict the drawn value to `0 .. 2**31-1`, because the drawn value is a parameter of the model.
- The return value of `append_index` (the page path), the `print` output, and the supervisor's log directory choice (main.py:173-174).
- `RunSpec`'s record of an unreadable checkpoint: a missing file and malformed JSON are both the single error `OptionsMissing`.

