/** The HTML index pages (main.py `append_index`): a header written when the
    file is created, then one table row per exported example, appended. A
    parser reads a page back into the rows that were appended to it. */
module HtmlIndex {
  import opened Format
  import opened ImageNames

  const TableOpen: string := "<html><body><table><tr>"
  const HeadCells: string := "<th>step</th><th>input</th><th>output</th><th>target</th></tr>"

  /** What a new index file starts with. */
  function Header(): (r: string)
  {
    TableOpen + HeadCells
  }

  /** `"<td><img src='images/%s'></td>" % name`. */
  function Cell(name: string): (r: string)
  {
    "<td><img src='images/" + name + "'></td>"
  }

  /** The image name of `kind` in a names record. */
  function NameOf(info: Names, kind: Kind): (r: string)
  {
    match kind
    case Inputs => info.inputs
    case Outputs => info.outputs
    case Targets => info.targets
  }

  /** The row order of the three images. */
  const RowKinds: seq<Kind> := [Inputs, Outputs, Targets]

  /** The first `n` image cells of a row. */
  function Cells(info: Names, n: nat): (r: string)
    requires n <= |RowKinds|
  {
    if n == 0 then [] else Cells(info, n - 1) + Cell(NameOf(info, RowKinds[n - 1]))
  }

  /** `"<td>%d</td>" % step`. */
  function StepCell(step: int): (r: string)
  {
    "<td>" + Decimal(step) + "</td>"
  }

  /** The row `append_index` writes for one names record. */
  function Row(info: Names): (r: string)
  {
    "<tr>" + StepCell(info.step) + Cells(info, 3) + "</tr>"
  }

  /** The three image cells of a row. */
  lemma AllCells(info: Names)
    ensures Cells(info, 3) == Cell(info.inputs) + Cell(info.outputs) + Cell(info.targets)
  {
    assert Cells(info, 1) == Cell(info.inputs);
    assert Cells(info, 2) == Cell(info.inputs) + Cell(info.outputs);
  }

  /** Rows for `infos`, in order. */
  function Rows(infos: seq<Names>): (r: string)
  {
    if infos == [] then [] else Row(infos[0]) + Rows(infos[1..])
  }

  /** A file's text after one more row: a missing file is created with the
      header first. */
  function AfterAppend(files: map<string, string>, filename: string, info: Names): (r: string)
  {
    (if filename in files then files[filename] else Header()) + Row(info)
  }

  /** The index files of the output directory, by name. */
  class IndexFiles {
    var files: map<string, string>

    constructor (existing: map<string, string>)
      ensures files == existing
    {
      files := existing;
    }

    /** `append_index(filename, info)`: opens the file for appending when it
        exists, otherwise creates it and writes the header; then writes the
        row. */
    method AppendIndex(filename: string, info: Names)
      modifies this
      ensures files == old(files)[filename := AfterAppend(old(files), filename, info)]
    {
      var text: string;
      if filename in files {
        text := files[filename];
      } else {
        text := TableOpen;
        text := text + HeadCells;
      }
      text := WriteRow(text, info);
      files := files[filename := text];
    }
  }

  /** Writes the row for `info` after `start`, piece by piece. */
  method WriteRow(start: string, info: Names) returns (text: string)
    ensures text == start + Row(info)
  {
    text := start + "<tr>";
    text := text + StepCell(info.step);
    text := WriteCells(text, info);
    text := text + "</tr>";
    var step, cells := StepCell(info.step), Cells(info, 3);
    Regroup(start, "<tr>", step);
    Regroup(start, "<tr>" + step, cells);
    Regroup(start, "<tr>" + step + cells, "</tr>");
  }

  /** Writes the three image cells of `info` after `start`, in row order. */
  method WriteCells(start: string, info: Names) returns (text: string)
    ensures text == start + Cells(info, |RowKinds|)
  {
    text := start;
    for i := 0 to |RowKinds|
      invariant text == start + Cells(info, i)
    {
      Regroup(start, Cells(info, i), Cell(NameOf(info, RowKinds[i])));
      text := text + Cell(NameOf(info, RowKinds[i]));
    }
  }

  /** The text after appending `infos` one by one, starting from `files`. */
  function AppendAll(files: map<string, string>, filename: string, infos: seq<Names>): (r: map<string, string>)
    decreases |infos|
  {
    if infos == [] then files
    else AppendAll(files[filename := AfterAppend(files, filename, infos[0])], filename, infos[1..])
  }

  lemma {:induction false} RowsSnoc(infos: seq<Names>, info: Names)
    ensures Rows(infos + [info]) == Rows(infos) + Row(info)
  {
    if infos == [] {
      assert [info][1..] == [];
    } else {
      assert (infos + [info])[1..] == infos[1..] + [info];
      RowsSnoc(infos[1..], info);
    }
  }

  /** A page holds its header once, followed by the rows appended to it in
      order: a new page starts with the header, an existing one keeps its
      text. */
  lemma {:induction false} AppendAllText(files: map<string, string>, filename: string, infos: seq<Names>)
    requires infos != []
    ensures var after := AppendAll(files, filename, infos);
      filename in after &&
      after[filename] == (if filename in files then files[filename] else Header()) + Rows(infos)
    decreases |infos|
  {
    var start := if filename in files then files[filename] else Header();
    var first := files[filename := AfterAppend(files, filename, infos[0])];
    assert Rows(infos) == Row(infos[0]) + Rows(infos[1..]);
    if |infos| > 1 {
      AppendAllText(first, filename, infos[1..]);
      Regroup(start, Row(infos[0]), Rows(infos[1..]));
    } else {
      assert Rows(infos[1..]) == [];
    }
  }

  /** Concatenation regroups freely. */
  lemma Regroup(a: string, b: string, c: string)
    ensures a + b + c == a + (b + c)
  {
  }

  /** Appending to one page leaves every other file as it was. */
  lemma {:induction false} AppendAllOthers(files: map<string, string>, filename: string, infos: seq<Names>)
    ensures var after := AppendAll(files, filename, infos);
      forall f :: f in files && f != filename ==> f in after && after[f] == files[f]
    decreases |infos|
  {
    if infos != [] {
      var first := files[filename := AfterAppend(files, filename, infos[0])];
      assert forall f :: f in files && f != filename ==> f in first && first[f] == files[f];
      AppendAllOthers(first, filename, infos[1..]);
    }
  }

  // ---------------------------------------------------------------------
  // Reading a page back

  /** `s` without its prefix `lit`, when it has that prefix; compared one
      character at a time. */
  function Expect(s: string, lit: string): (r: Option<string>)
  {
    if lit == [] then Some(s)
    else if s == [] || s[0] != lit[0] then None
    else Expect(s[1..], lit[1..])
  }

  /** An image cell: the name runs up to the closing quote. */
  function ParseCell(s: string): (r: Option<(string, string)>)
  {
    match Expect(s, "<td><img src='images/")
    case None => None
    case Some(t) =>
      var i := FirstIndexOf(t, '\'');
      match Expect(t[i..], "'></td>")
      case None => None
      case Some(rest) => Some((t[..i], rest))
  }

  function ParseRow(s: string): (r: Option<(Names, string)>)
  {
    match Expect(s, "<tr><td>")
    case None => None
    case Some(t) =>
      var i := FirstIndexOf(t, '<');
      match (ParseInt(t[..i]), Expect(t[i..], "</td>"))
      case (Some(step), Some(t1)) => ParseCells(step, t1)
      case _ => None
  }

  /** The three image cells and the end of a row. */
  function ParseCells(step: int, s: string): (r: Option<(Names, string)>)
  {
    match ParseCell(s)
    case None => None
    case Some((inputs, s1)) =>
      match ParseCell(s1)
      case None => None
      case Some((outputs, s2)) =>
        match ParseCell(s2)
        case None => None
        case Some((targets, s3)) =>
          match Expect(s3, "</tr>")
          case None => None
          case Some(rest) => Some((Names(step, inputs, outputs, targets), rest))
  }

  function ParseRows(s: string): (r: Option<seq<Names>>)
    decreases |s|
  {
    if s == [] then Some([])
    else
      match ParseRow(s)
      case None => None
      case Some((info, rest)) =>
        if |rest| >= |s| then None
        else
          match ParseRows(rest)
          case None => None
          case Some(infos) => Some([info] + infos)
  }

  /** The rows of a page, when it is a page `append_index` wrote. */
  function ParseIndex(s: string): (r: Option<seq<Names>>)
  {
    match Expect(s, Header())
    case None => None
    case Some(rows) => ParseRows(rows)
  }

  /** A name that can stand inside the quoted `src` attribute. */
  predicate Quotable(name: string)
  {
    forall i :: 0 <= i < |name| ==> name[i] != '\''
  }

  predicate RowReadable(info: Names)
  {
    Quotable(info.inputs) && Quotable(info.outputs) && Quotable(info.targets)
  }

  lemma {:induction false} ExpectPrefix(lit: string, rest: string)
    ensures Expect(lit + rest, lit) == Some(rest)
  {
    if lit != [] {
      var s := lit + rest;
      assert s != [] && s[0] == lit[0];
      assert s[1..] == lit[1..] + rest;
      ExpectPrefix(lit[1..], rest);
      assert Expect(s, lit) == Expect(s[1..], lit[1..]);
    } else {
      assert lit + rest == rest;
    }
  }

  /** Reading up to the first `c` stops where `b` starts when `a` has no `c`. */
  lemma UpTo(a: string, b: string, c: char)
    requires forall j :: 0 <= j < |a| ==> a[j] != c
    requires |b| > 0 && b[0] == c
    ensures FirstIndexOf(a + b, c) == |a|
    ensures (a + b)[..|a|] == a && (a + b)[|a|..] == b
  {
    assert a + b == a + [c] + b[1..];
    FirstIndexOfSplit(a, c, b[1..]);
  }

  lemma CellRoundTrip(name: string, rest: string)
    requires Quotable(name)
    ensures ParseCell(Cell(name) + rest) == Some((name, rest))
  {
    var open := "<td><img src='images/";
    var close := "'></td>";
    assert open + name + close + rest == open + (name + (close + rest));
    ExpectPrefix(open, name + (close + rest));
    UpTo(name, close + rest, '\'');
    ExpectPrefix(close, rest);
  }

  lemma CellsRoundTrip(step: int, info: Names, rest: string)
    requires RowReadable(info) && info.step == step
    ensures ParseCells(step, Cells(info, 3) + "</tr>" + rest) == Some((info, rest))
  {
    var c1, c2, c3 := Cell(info.inputs), Cell(info.outputs), Cell(info.targets);
    AllCells(info);
    var tail := "</tr>" + rest;
    Regroup(c1 + c2 + c3, "</tr>", rest);
    Regroup(c1 + c2, c3, tail);
    Regroup(c1, c2, c3 + tail);
    CellRoundTrip(info.inputs, c2 + (c3 + tail));
    CellRoundTrip(info.outputs, c3 + tail);
    CellRoundTrip(info.targets, tail);
    ExpectPrefix("</tr>", rest);
  }

  lemma DecimalHasNoTag(n: int)
    ensures forall j :: 0 <= j < |Decimal(n)| ==> Decimal(n)[j] != '<'
  {
    PadAlphabet(n, 0);
  }

  lemma RowText(info: Names, rest: string)
    ensures Row(info) + rest == "<tr><td>" + (Decimal(info.step) + ("</td>" + (Cells(info, 3) + "</tr>" + rest)))
  {
    var d, c := Decimal(info.step), Cells(info, 3);
    assert "<tr>" + StepCell(info.step) == "<tr><td>" + d + "</td>";
    assert Row(info) + rest == "<tr><td>" + d + "</td>" + c + "</tr>" + rest;
  }

  /** Every row `append_index` writes reads back to its names record. */
  lemma RowRoundTrip(info: Names, rest: string)
    requires RowReadable(info)
    ensures ParseRow(Row(info) + rest) == Some((info, rest))
    ensures |rest| < |Row(info) + rest|
  {
    var d := Decimal(info.step);
    var cells := Cells(info, 3) + "</tr>" + rest;
    var t := d + ("</td>" + cells);
    RowText(info, rest);
    ExpectPrefix("<tr><td>", t);
    DecimalHasNoTag(info.step);
    UpTo(d, "</td>" + cells, '<');
    PadRoundTrip(info.step, 0);
    ExpectPrefix("</td>", cells);
    CellsRoundTrip(info.step, info, rest);
  }

  lemma {:induction false} RowsRoundTrip(infos: seq<Names>)
    requires forall i :: 0 <= i < |infos| ==> RowReadable(infos[i])
    ensures ParseRows(Rows(infos)) == Some(infos)
  {
    if infos != [] {
      RowRoundTrip(infos[0], Rows(infos[1..]));
      RowsRoundTrip(infos[1..]);
      assert [infos[0]] + infos[1..] == infos;
    }
  }

  /** A page that `append_index` created and appended `infos` to reads back
      to exactly those rows, in order. */
  lemma IndexRoundTrip(infos: seq<Names>)
    requires forall i :: 0 <= i < |infos| ==> RowReadable(infos[i])
    ensures ParseIndex(Header() + Rows(infos)) == Some(infos)
  {
    ExpectPrefix(Header(), Rows(infos));
    RowsRoundTrip(infos);
  }

  /** The names the program exports never contain a quote, so every row it
      writes can be read back. */
  lemma EntryRowsReadable(e: Entry)
    ensures RowReadable(EntryNames(e))
  {
    FileNameQuotable(EntryFile(e, Inputs));
    FileNameQuotable(EntryFile(e, Outputs));
    FileNameQuotable(EntryFile(e, Targets));
  }

  lemma FileNameQuotable(f: ImageFile)
    ensures Quotable(FileName(f))
  {
    var head := Pad(f.step, 10);
    PadQuotable(f.step, 10);
    QuotableConcat(head, "_");
    var tail := AfterStep(f);
    match f {
      case Example(step, index, kind) =>
        PadQuotable(index, 3);
        QuotableConcat(Pad(index, 3), "_");
        QuotableConcat(Pad(index, 3) + "_", KindText(kind));
      case Display(step, kind) =>
    }
    QuotableConcat(head + "_", tail);
    QuotableConcat(head + "_" + tail, ".jpg");
  }

  lemma PadQuotable(n: int, width: nat)
    ensures Quotable(Pad(n, width))
  {
    PadAlphabet(n, width);
  }

  lemma QuotableConcat(a: string, b: string)
    requires Quotable(a) && Quotable(b)
    ensures Quotable(a + b)
  {
  }
}
