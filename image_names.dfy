/** The image file names and the name records handed to `append`
    (main.py `validate`, the generator-pretraining export and the display
    export of the adversarial loop), with a parser that recovers the step,
    the example index and the kind from a file name. */
module ImageNames {
  import opened Format

  /** The three images written per example, in index-row order. */
  datatype Kind = Inputs | Outputs | Targets

  function KindText(k: Kind): (r: string)
  {
    match k
    case Inputs => "inputs"
    case Outputs => "outputs"
    case Targets => "targets"
  }

  /** The dictionary passed to `append`: the row's step field and one image
      file name per kind. */
  datatype Names = Names(step: int, inputs: string, outputs: string, targets: string)

  /** What a file name encodes. */
  datatype ImageFile =
    | Example(step: int, index: int, kind: Kind)   // '%010d_%03d_<kind>.jpg' % (step, index)
    | Display(step: int, kind: Kind)               // '%010d_<kind>.jpg' % step

  function FileName(f: ImageFile): (r: string)
  {
    match f
    case Example(step, index, kind) => Pad(step, 10) + "_" + Pad(index, 3) + "_" + KindText(kind) + ".jpg"
    case Display(step, kind) => Pad(step, 10) + "_" + KindText(kind) + ".jpg"
  }

  /** What one call of `append` exports: example `index` under step `step`
      (validation and generator pretraining), or the training images
      displayed at adversarial step `step`. */
  datatype Entry = ExampleEntry(step: int, index: int) | DisplayEntry(step: int)

  function EntryFile(e: Entry, kind: Kind): (r: ImageFile)
  {
    match e
    case ExampleEntry(step, index) => Example(step, index, kind)
    case DisplayEntry(step) => Display(step, kind)
  }

  /** The names dictionary `append` receives for entry `e`. */
  function EntryNames(e: Entry): (r: Names)
  {
    Names(e.step, FileName(EntryFile(e, Inputs)), FileName(EntryFile(e, Outputs)), FileName(EntryFile(e, Targets)))
  }

  function ParseKind(s: string): (r: Option<Kind>)
  {
    if s == "inputs" then Some(Inputs)
    else if s == "outputs" then Some(Outputs)
    else if s == "targets" then Some(Targets)
    else None
  }

  /** Position of the first `c` in `s`, or `|s|` when there is none. */
  function FirstIndexOf(s: string, c: char): (i: nat)
    ensures i <= |s|
    ensures i < |s| ==> s[i] == c
    ensures forall j :: 0 <= j < i ==> s[j] != c
  {
    if s == [] then 0
    else if s[0] == c then 0
    else 1 + FirstIndexOf(s[1..], c)
  }

  /** Reads back a name built by `FileName`. */
  function ParseFileName(s: string): (r: Option<ImageFile>)
  {
    if |s| < 4 || s[|s| - 4..] != ".jpg" then None
    else
      var body := s[..|s| - 4];
      var u := FirstIndexOf(body, '_');
      if u == |body| then None
      else
        match ParseInt(body[..u])
        case None => None
        case Some(step) => ParseAfterStep(step, body[u + 1..])
  }

  /** The part of a name after the step and its underscore, without ".jpg". */
  function ParseAfterStep(step: int, rest: string): (r: Option<ImageFile>)
  {
    match ParseKind(rest)
    case Some(kind) => Some(Display(step, kind))
    case None =>
      var v := FirstIndexOf(rest, '_');
      if v == |rest| then None
      else
        match (ParseInt(rest[..v]), ParseKind(rest[v + 1..]))
        case (Some(index), Some(kind)) => Some(Example(step, index, kind))
        case _ => None
  }

  lemma PadHasNoUnderscore(n: int, width: nat)
    ensures FirstIndexOf(Pad(n, width), '_') == |Pad(n, width)|
    ensures forall j :: 0 <= j < |Pad(n, width)| ==> Pad(n, width)[j] != '_'
  {
    PadAlphabet(n, width);
    FirstIndexOfAbsent(Pad(n, width), '_');
  }

  lemma {:induction false} FirstIndexOfAbsent(s: string, c: char)
    requires forall j :: 0 <= j < |s| ==> s[j] != c
    ensures FirstIndexOf(s, c) == |s|
  {
    if s != [] {
      FirstIndexOfAbsent(s[1..], c);
    }
  }

  lemma FirstIndexOfSplit(a: string, c: char, b: string)
    requires forall j :: 0 <= j < |a| ==> a[j] != c
    ensures FirstIndexOf(a + [c] + b, c) == |a|
  {
    var s := a + [c] + b;
    var i := FirstIndexOf(s, c);
    assert s[|a|] == c;
    assert forall j :: 0 <= j < |a| ==> s[j] == a[j];
  }

  lemma KindTextNoUnderscore(k: Kind)
    ensures forall j :: 0 <= j < |KindText(k)| ==> KindText(k)[j] != '_'
    ensures 6 <= |KindText(k)| <= 7
    ensures ParseKind(KindText(k)) == Some(k)
  {
  }

  /** Every image name the program builds is read back to what built it. */
  lemma FileNameRoundTrip(f: ImageFile)
    ensures ParseFileName(FileName(f)) == Some(f)
  {
    var tail := AfterStep(f);
    match f {
      case Example(step, index, kind) =>
        ExampleTail(step, index, kind);
      case Display(step, kind) =>
        KindTextNoUnderscore(kind);
    }
    StepThenRest(f.step, tail);
  }

  /** The part of `FileName(f)` between the step's underscore and ".jpg". */
  function AfterStep(f: ImageFile): (tail: string)
    ensures FileName(f) == Pad(f.step, 10) + "_" + tail + ".jpg"
  {
    match f
    case Example(step, index, kind) => Pad(index, 3) + "_" + KindText(kind)
    case Display(step, kind) => KindText(kind)
  }

  lemma ExampleTail(step: int, index: int, kind: Kind)
    ensures ParseAfterStep(step, Pad(index, 3) + "_" + KindText(kind)) == Some(Example(step, index, kind))
  {
    var k := KindText(kind);
    var mid := Pad(index, 3);
    var tail := mid + "_" + k;
    KindTextNoUnderscore(kind);
    PadHasNoUnderscore(index, 3);
    PadRoundTrip(index, 3);
    PadLength(index, 3);
    FirstIndexOfSplit(mid, '_', k);
    assert tail[..|mid|] == mid;
    assert tail[|mid| + 1..] == k;
    assert |tail| >= 10;
  }

  lemma StepThenRest(step: int, tail: string)
    ensures ParseFileName(Pad(step, 10) + "_" + tail + ".jpg") == ParseAfterStep(step, tail)
  {
    var head := Pad(step, 10);
    var s := head + "_" + tail + ".jpg";
    var body := head + "_" + tail;
    PadHasNoUnderscore(step, 10);
    PadRoundTrip(step, 10);
    assert s[..|s| - 4] == body;
    assert s[|s| - 4..] == ".jpg";
    FirstIndexOfSplit(head, '_', tail);
    assert body[..|head|] == head;
    assert body[|head| + 1..] == tail;
  }

  /** No two different images of a run share a file name. */
  lemma FileNameInjective(f: ImageFile, g: ImageFile)
    requires FileName(f) == FileName(g)
    ensures f == g
  {
    FileNameRoundTrip(f);
    FileNameRoundTrip(g);
  }

  /** Different entries get different names records; that no image file is
      written twice by one run is `Exports.TrainFilesDistinct` and
      `Run.RunFilesDistinct`. */
  lemma EntryNamesInjective(a: Entry, b: Entry)
    requires EntryNames(a) == EntryNames(b)
    ensures a == b
  {
    FileNameInjective(EntryFile(a, Inputs), EntryFile(b, Inputs));
  }
}
