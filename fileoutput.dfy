/**
 * Writing the month's figures: into the output workbook, as one write per
 * key under a "Date Compiled" write and followed by a single save; and into
 * the plain-text log, as one block appended per run.
 */
module FileOutput {
  import opened Builtins
  import opened Dicts
  import opened Xlsx

  /** The write for the compile date: found by column F, written to column G, from row 3. */
  function DateRequest(formattedDate: string): Request
  {
    SetMatching("F", "Date Compiled", "G", PyStr(formattedDate), 3)
  }

  /** The write for one figure: found by its key in column A, written to column B, from row 3. */
  function FigureRequest(key: string, value: PyValue): Request
  {
    SetMatching("A", key, "B", value, 3)
  }

  /** The requests `write_output_file` makes, in order. */
  function WriteRequests(data: Dict, formattedDate: string): (r: seq<Request>)
    ensures |r| == |Keys(data)| + 2
    ensures r[0] == DateRequest(formattedDate)
    ensures forall i :: 0 <= i < |Keys(data)| ==>
      r[i + 1].SetMatching? && r[i + 1].srchval == Keys(data)[i] && Some(r[i + 1].setval) == Lookup(data, Keys(data)[i])
      && r[i + 1] == FigureRequest(Keys(data)[i], r[i + 1].setval)
    ensures r[|r| - 1] == Save
    ensures forall i :: 0 <= i < |r| - 1 ==> r[i] != Save
  {
    var figures := seq(|Items(data)|, i requires 0 <= i < |Items(data)| => FigureRequest(Items(data)[i].0, Items(data)[i].1));
    [DateRequest(formattedDate)] + figures + [Save]
  }

  /** No key is written twice. */
  lemma EachKeyWrittenOnce(data: Dict, formattedDate: string, i: nat, j: nat)
    requires 0 < i < j < |Keys(data)| + 1
    ensures WriteRequests(data, formattedDate)[i].srchval != WriteRequests(data, formattedDate)[j].srchval
  {
    DedupDistinct(KeysOf(data.writes));
  }

  /** `write_output_file`. */
  method WriteOutputFile(book: Workbook, data: Dict, formattedDate: string)
    modifies book
    ensures book.requests == old(book.requests) + WriteRequests(data, formattedDate)
  {
    book.SetMatchingValue("F", "Date Compiled", "G", PyStr(formattedDate), 3);
    var keys := Keys(data);
    KeysLookup(data);
    ghost var expected := WriteRequests(data, formattedDate);
    for i := 0 to |keys|
      invariant book.requests == old(book.requests) + expected[..i + 1]
    {
      book.SetMatchingValue("A", keys[i], "B", Lookup(data, keys[i]).value, 3);
      assert expected[..i + 2] == expected[..i + 1] + [expected[i + 1]];
    }
    book.SaveBook();
    assert expected == expected[..|keys| + 1] + [Save];
  }

  // ---------------------------------------------------------------- the log

  /** The block one run appends: the date, a newline and the formatted mapping, then a blank line. */
  function LogEntry(data: Dict, formattedDate: string, pformat: Dict -> string): (r: string)
    ensures |r| == |formattedDate| + |pformat(data)| + 3
    ensures r[..|formattedDate|] == formattedDate
    ensures r[|formattedDate|] == '\n'
    ensures r[|formattedDate| + 1..|r| - 2] == pformat(data)
    ensures r[|r| - 2..] == "\n\n"
  {
    formattedDate + "\n" + pformat(data) + "\n\n"
  }

  /** A log file opened for appending. */
  class LogFile {
    var contents: string

    constructor (initial: string)
      ensures contents == initial
    {
      contents := initial;
    }

    /** `file.write(s)` in append mode. */
    method Write(s: string)
      modifies this
      ensures contents == old(contents) + s
    {
      contents := contents + s;
    }
  }

  /** `output_py`, with the pretty-printer as a parameter. */
  method OutputPy(data: Dict, log: LogFile, formattedDate: string, pformat: Dict -> string)
    modifies log
    ensures log.contents == old(log.contents) + LogEntry(data, formattedDate, pformat)
    ensures log.contents[..|old(log.contents)|] == old(log.contents)
  {
    log.Write(formattedDate);
    log.Write("\n" + pformat(data));
    log.Write("\n\n");
  }
}
