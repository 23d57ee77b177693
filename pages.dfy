/** What a run leaves in its HTML index pages: the rows `append` adds, in
    the order the schedule exports them, read back from the page. */
module Pages {
  import opened Format
  import opened ImageNames
  import opened Schedule
  import opened HtmlIndex

  /** The entries the actions in `t` export to `index`, in order. */
  function EntriesFor(t: seq<Event>, index: Index): (r: seq<Entry>)
  {
    if t == [] then []
    else
      var e := t[|t| - 1];
      EntriesFor(t[..|t| - 1], index) + (if e.Append? && e.index == index then [e.entry] else [])
  }

  /** The names records `append` receives for `entries`. */
  function NamesOf(entries: seq<Entry>): (r: seq<Names>)
  {
    seq(|entries|, i requires 0 <= i < |entries| => EntryNames(entries[i]))
  }

  lemma {:induction false} EntriesForConcat(a: seq<Event>, b: seq<Event>, index: Index)
    ensures EntriesFor(a + b, index) == EntriesFor(a, index) + EntriesFor(b, index)
  {
    if b != [] {
      var t := a + b;
      assert t[..|t| - 1] == a + b[..|b| - 1];
      assert t[|t| - 1] == b[|b| - 1];
      EntriesForConcat(a, b[..|b| - 1], index);
    } else {
      assert a + b == a;
    }
  }

  /** Every row the program appends can be read back. */
  lemma NamesReadable(entries: seq<Entry>)
    ensures forall i :: 0 <= i < |NamesOf(entries)| ==> RowReadable(NamesOf(entries)[i])
  {
    forall i | 0 <= i < |entries|
      ensures RowReadable(NamesOf(entries)[i])
    {
      EntryRowsReadable(entries[i]);
    }
  }

  /** `validate(g)` exports examples 0 .. n-1 under step `g` to the
      validation page, in order, and nothing to the training page. */
  lemma {:induction false} ValidatePage(g: int, n: nat)
    ensures EntriesFor(ValidateTrace(g, n), ValidateHtml) == seq(n, i => ExampleEntry(g, i))
    ensures EntriesFor(ValidateTrace(g, n), TrainHtml) == []
  {
    if n > 0 {
      ValidatePage(g, n - 1);
      var a, b := ValidateTrace(g, n - 1), ValidateStep(g, n - 1);
      EntriesForConcat(a, b, ValidateHtml);
      EntriesForConcat(a, b, TrainHtml);
      assert b[..1] == [ValBatch] && [ValBatch][..0] == [];
      assert EntriesFor([ValBatch], ValidateHtml) == [] && EntriesFor([ValBatch], TrainHtml) == [];
      assert EntriesFor(b, ValidateHtml) == [ExampleEntry(g, n - 1)];
      assert EntriesFor(b, TrainHtml) == [];
      assert seq(n, i => ExampleEntry(g, i)) == seq(n - 1, i => ExampleEntry(g, i)) + [ExampleEntry(g, n - 1)];
    }
  }

  /** A page the run creates reads back to exactly the rows the run
      appended to it, in order, after the header. */
  lemma PageReadsBack(files: map<string, string>, t: seq<Event>, index: Index)
    requires IndexFile(index) !in files && EntriesFor(t, index) != []
    ensures var rows := NamesOf(EntriesFor(t, index));
      var after := AppendAll(files, IndexFile(index), rows);
      IndexFile(index) in after && ParseIndex(after[IndexFile(index)]) == Some(rows)
  {
    var rows := NamesOf(EntriesFor(t, index));
    AppendAllText(files, IndexFile(index), rows);
    NamesReadable(EntriesFor(t, index));
    IndexRoundTrip(rows);
  }

  /** The validation page of a fresh test run lists the `nval` validation
      examples under step -1, in order. */
  lemma TestRunPage(files: map<string, string>, nval: nat)
    requires "validate.html" !in files && nval > 0
    ensures var rows := NamesOf(EntriesFor(ValidateTrace(-1, nval), ValidateHtml));
      var after := AppendAll(files, "validate.html", rows);
      "validate.html" in after &&
      ParseIndex(after["validate.html"]) == Some(NamesOf(seq(nval, i => ExampleEntry(-1, i))))
  {
    ValidatePage(-1, nval);
    PageReadsBack(files, ValidateTrace(-1, nval), ValidateHtml);
  }
}
