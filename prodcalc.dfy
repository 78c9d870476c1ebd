/**
 * The production domain: meter totals per production machine, the two waste
 * figures (always recorded as debits), and the accuracy, timeliness and job
 * count statistics, each read from its optional workbook or asked for.
 */
module ProdCalc {
  import opened Builtins
  import opened Dicts
  import opened Prompt
  import opened Xlsx

  // ---------------------------------------------------------------- configuration

  datatype Machine = Machine(name: string, serial: string)

  /**
   * The "production info" configuration: the entries of the mapping other
   * than "meter columns", in order, and the "meter columns" mapping from a
   * column heading (such as "serials" or "total color") to a column letter.
   */
  datatype ProductionInfo = ProductionInfo(entries: seq<(string, Machine)>, meterColumns: seq<(string, string)>)

  predicate IsMachineKey(key: string) { Contains(key, "machine") }

  predicate IsTotalLabel(heading: string) { Contains(heading, "total") }

  /** `meter_columns[heading]`, or None for the KeyError. */
  function ColumnOf(cols: seq<(string, string)>, heading: string): Option<string>
  {
    if cols == [] then None
    else if cols[0].0 == heading then Some(cols[0].1)
    else ColumnOf(cols[1..], heading)
  }

  // ---------------------------------------------------------------- meter totals

  /** The assignments one machine contributes: one per "total" column, under "{name} {heading}". */
  function MachineWrites(m: Machine, cols: seq<(string, string)>, serials: string, meters: Sheet): Writes
  {
    if cols == [] then []
    else
      var (heading, column) := cols[|cols| - 1];
      MachineWrites(m, cols[..|cols| - 1], serials, meters)
        + if IsTotalLabel(heading)
          then [(m.name + " " + heading, meters(Matching(serials, m.serial, column, 5)))]
          else []
  }

  /** The assignments of `_read_production_volumes`, machine by machine. */
  function VolumeWrites(es: seq<(string, Machine)>, cols: seq<(string, string)>, serials: string, meters: Sheet): Writes
  {
    if es == [] then []
    else
      VolumeWrites(es[..|es| - 1], cols, serials, meters)
        + if IsMachineKey(es[|es| - 1].0) then MachineWrites(es[|es| - 1].1, cols, serials, meters) else []
  }

  ghost predicate HasContribution(es: seq<(string, Machine)>, cols: seq<(string, string)>)
  {
    exists i, j :: 0 <= i < |es| && 0 <= j < |cols| && IsMachineKey(es[i].0) && IsTotalLabel(cols[j].0)
  }

  /**
   * `_read_production_volumes`. The serials column is looked up at each
   * contribution, so a configuration without one raises KeyError only when
   * some machine has some total column, and before anything is written.
   */
  ghost function ProductionVolumes(d: Dict, info: ProductionInfo, meters: Sheet): After
  {
    match ColumnOf(info.meterColumns, "serials")
    case Some(sc) => After(PutAll(d, VolumeWrites(info.entries, info.meterColumns, sc, meters)), Ok(()), 0)
    case None =>
      if HasContribution(info.entries, info.meterColumns) then After(d, Raised(KeyError), 0)
      else After(d, Ok(()), 0)
  }

  /** Exactly the pairs of a machine entry and a total column contribute, each with its looked-up meter value. */
  lemma {:induction false} VolumeWritesMembers(es: seq<(string, Machine)>, cols: seq<(string, string)>, serials: string, meters: Sheet, w: (string, PyValue))
    ensures w in VolumeWrites(es, cols, serials, meters) <==>
      exists i, j :: 0 <= i < |es| && 0 <= j < |cols| && IsMachineKey(es[i].0) && IsTotalLabel(cols[j].0)
        && w == (es[i].1.name + " " + cols[j].0, meters(Matching(serials, es[i].1.serial, cols[j].1, 5)))
  {
    if es != [] {
      var p := es[..|es| - 1];
      VolumeWritesMembers(p, cols, serials, meters, w);
      MachineWritesMembers(es[|es| - 1].1, cols, serials, meters, w);
      if w in VolumeWrites(es, cols, serials, meters) {
        if w !in VolumeWrites(p, cols, serials, meters) {
          var j :| 0 <= j < |cols| && IsTotalLabel(cols[j].0)
            && w == (es[|es| - 1].1.name + " " + cols[j].0, meters(Matching(serials, es[|es| - 1].1.serial, cols[j].1, 5)));
          assert IsMachineKey(es[|es| - 1].0);
        } else {
          var i, j :| 0 <= i < |p| && 0 <= j < |cols| && IsMachineKey(p[i].0) && IsTotalLabel(cols[j].0)
            && w == (p[i].1.name + " " + cols[j].0, meters(Matching(serials, p[i].1.serial, cols[j].1, 5)));
          assert es[i] == p[i];
        }
      } else {
        forall i, j | 0 <= i < |es| && 0 <= j < |cols| && IsMachineKey(es[i].0) && IsTotalLabel(cols[j].0)
          ensures w != (es[i].1.name + " " + cols[j].0, meters(Matching(serials, es[i].1.serial, cols[j].1, 5)))
        {
          if i < |p| {
            assert es[i] == p[i];
          }
        }
      }
    }
  }

  lemma {:induction false} MachineWritesMembers(m: Machine, cols: seq<(string, string)>, serials: string, meters: Sheet, w: (string, PyValue))
    ensures w in MachineWrites(m, cols, serials, meters) <==>
      exists j :: 0 <= j < |cols| && IsTotalLabel(cols[j].0)
        && w == (m.name + " " + cols[j].0, meters(Matching(serials, m.serial, cols[j].1, 5)))
  {
    if cols != [] {
      var p := cols[..|cols| - 1];
      MachineWritesMembers(m, p, serials, meters, w);
      if w in MachineWrites(m, cols, serials, meters) && w !in MachineWrites(m, p, serials, meters) {
        assert IsTotalLabel(cols[|cols| - 1].0);
      }
      forall j | 0 <= j < |p| ensures p[j] == cols[j] { }
    }
  }

  /** Nothing is written exactly when no machine entry meets a total column. */
  lemma {:induction false} VolumeWritesEmpty(es: seq<(string, Machine)>, cols: seq<(string, string)>, serials: string, meters: Sheet)
    ensures VolumeWrites(es, cols, serials, meters) == [] <==> !HasContribution(es, cols)
  {
    if HasContribution(es, cols) {
      var i, j :| 0 <= i < |es| && 0 <= j < |cols| && IsMachineKey(es[i].0) && IsTotalLabel(cols[j].0);
      var m := es[i].1;
      VolumeWritesMembers(es, cols, serials, meters,
        (m.name + " " + cols[j].0, meters(Matching(serials, m.serial, cols[j].1, 5))));
    } else if VolumeWrites(es, cols, serials, meters) != [] {
      VolumeWritesMembers(es, cols, serials, meters, VolumeWrites(es, cols, serials, meters)[0]);
    }
  }

  /** The "serials" column heading never contributes a total. */
  lemma SerialsIsNoTotal()
    ensures !IsTotalLabel("serials")
  {
    var heading := "serials";
    if Contains(heading, "total") {
      ContainsFirst(heading, "total");
      assert false;
    }
  }

  ghost predicate HasTotal(cols: seq<(string, string)>)
  {
    exists j :: 0 <= j < |cols| && IsTotalLabel(cols[j].0)
  }

  /** One more entry that is no machine, or that meets no total column, adds no contribution. */
  lemma NoContributionExtends(es: seq<(string, Machine)>, cols: seq<(string, string)>)
    requires |es| > 0 && !HasContribution(es[..|es| - 1], cols)
    requires !IsMachineKey(es[|es| - 1].0) || !HasTotal(cols)
    ensures !HasContribution(es, cols)
  {
    forall i, j | 0 <= i < |es| - 1 && 0 <= j < |cols| && IsMachineKey(es[i].0)
      ensures !IsTotalLabel(cols[j].0)
    {
      assert es[..|es| - 1][i] == es[i];
    }
  }

  /** The inner loop of `_read_production_volumes`: the total columns of one machine. */
  method ReadMachineVolumes(meters: Sheet, data: DataDict, m: Machine, cols: seq<(string, string)>, serials: Option<string>)
    returns (status: Outcome<()>)
    modifies data
    ensures status == if serials.None? && HasTotal(cols) then Raised(KeyError) else Ok(())
    ensures data.items == if serials.None? then old(data.items) else PutAll(old(data.items), MachineWrites(m, cols, serials.value, meters))
  {
    var sc := if serials.Some? then serials.value else "";
    var j := 0;
    while j < |cols|
      invariant 0 <= j <= |cols|
      invariant serials.None? ==> data.items == old(data.items) && !HasTotal(cols[..j])
      invariant serials.Some? ==> data.items == PutAll(old(data.items), MachineWrites(m, cols[..j], sc, meters))
    {
      assert cols[..j + 1][..j] == cols[..j];
      var (heading, column) := cols[j];
      if IsTotalLabel(heading) {
        if serials.None? {
          assert IsTotalLabel(cols[j].0);
          return Raised(KeyError);
        }
        var w := (m.name + " " + heading, meters(Matching(sc, m.serial, column, 5)));
        data.Set(w.0, w.1);
        assert MachineWrites(m, cols[..j + 1], sc, meters) == MachineWrites(m, cols[..j], sc, meters) + [w];
      } else if serials.None? {
        var c := cols[..j + 1];
        forall k | 0 <= k < j + 1 ensures !IsTotalLabel(c[k].0) {
          if k < j {
            assert c[k] == cols[..j][k];
          }
        }
      } else {
        assert MachineWrites(m, cols[..j + 1], sc, meters) == MachineWrites(m, cols[..j], sc, meters) + [];
      }
      j := j + 1;
    }
    assert cols[..j] == cols;
    status := Ok(());
  }

  method ReadProductionVolumes(meters: Sheet, data: DataDict, info: ProductionInfo) returns (status: Outcome<()>)
    modifies data
    ensures After(data.items, status, 0) == ProductionVolumes(old(data.items), info, meters)
  {
    var es, cols := info.entries, info.meterColumns;
    var serials := ColumnOf(cols, "serials");
    ghost var sc := if serials.Some? then serials.value else "";
    var i := 0;
    while i < |es|
      invariant 0 <= i <= |es|
      invariant serials.None? ==> data.items == old(data.items) && !HasContribution(es[..i], cols)
      invariant serials.Some? ==> data.items == PutAll(old(data.items), VolumeWrites(es[..i], cols, sc, meters))
    {
      assert es[..i + 1][..i] == es[..i];
      var (entry, m) := es[i];
      if IsMachineKey(entry) {
        ghost var before := data.items;
        status := ReadMachineVolumes(meters, data, m, cols, serials);
        if status.Raised? {
          var j :| 0 <= j < |cols| && IsTotalLabel(cols[j].0);
          assert IsMachineKey(es[i].0);
          return;
        }
        if serials.Some? {
          assert VolumeWrites(es[..i + 1], cols, sc, meters) == VolumeWrites(es[..i], cols, sc, meters) + MachineWrites(m, cols, sc, meters);
        } else {
          assert es[..i + 1][..i] == es[..i];
          NoContributionExtends(es[..i + 1], cols);
        }
      } else if serials.None? {
        NoContributionExtends(es[..i + 1], cols);
      } else {
        assert VolumeWrites(es[..i + 1], cols, sc, meters) == VolumeWrites(es[..i], cols, sc, meters) + [];
      }
      i := i + 1;
    }
    assert es[..i] == es;
    if serials.None? {
      VolumeWritesEmpty(es, cols, sc, meters);
    }
    status := Ok(());
  }

  // ---------------------------------------------------------------- waste

  /** The text `int()` receives: a "-" is put in front unless the entry is "0", empty or already negative. */
  function CoerceWaste(s: string): string
  {
    if s != "0" && |s| > 0 && s[0] != '-' then "-" + s else s
  }

  /** A waste entry as `_get_waste_input_from_user` accepts it: always a debit. */
  function WasteEntry(s: string): (r: Option<int>)
    ensures r.Some? ==> r.value <= 0
    ensures IsNumeric(s) ==> r == Some(0 - DigitsValue(s))
    ensures |s| > 0 && s[0] == '-' ==> r == ParseInt(s)
    ensures s == "" ==> r == None
    ensures r.Some? <==> IsNumeric(s) || (|s| > 0 && s[0] == '-' && IsNumeric(s[1..]))
  {
    var t := CoerceWaste(s);
    assert IsNumeric(s) && s != "0" ==> t[1..] == s;
    assert s == "0" ==> DigitsValue(s) == 0;
    ParseInt(t)
  }

  lemma WasteExamples()
    ensures WasteEntry("5") == Some(-5)
    ensures WasteEntry("-5") == Some(-5)
    ensures WasteEntry("0") == Some(0)
  {
    assert IsNumeric("5") && DigitsValue("5") == 5;
    assert "-5"[1..] == "5";
  }

  /** `_get_waste_input_from_user`: re-asks until an entry converts; the figure returned is never positive. */
  method GetWasteInputFromUser(lines: seq<string>) returns (r: Outcome<int>, used: nat)
    ensures (r, used) == Retry(lines, WasteEntry)
    ensures r.Ok? ==> r.value <= 0 && 0 < used <= |lines| && WasteEntry(lines[used - 1]) == Some(r.value)
    ensures r.Raised? ==> r.exc == EOFError && used == |lines|
  {
    r, used := AskUntilAccepted(lines, WasteEntry);
  }

  const WasteKeys: seq<string> := ["Black and White Waste", "Color Waste"]

  /** Ask one waste figure per key, in order, recording each as it is entered. */
  function AskEachWaste(d: Dict, keys: seq<string>, lines: seq<string>): (r: After)
    ensures r.used <= |lines|
    decreases |keys|
  {
    if keys == [] then After(d, Ok(()), 0)
    else
      var (o, n) := Retry(lines, WasteEntry);
      match o
      case Raised(e) => After(d, Raised(e), n)
      case Ok(v) =>
        var rest := AskEachWaste(Put(d, keys[0], PyInt(v)), keys[1..], lines[n..]);
        After(rest.data, rest.status, n + rest.used)
  }

  /** `_get_waste_totals`. */
  function WasteTotals(d: Dict, lines: seq<string>): After
  {
    AskEachWaste(d, WasteKeys, lines)
  }

  /** Asking for waste leaves every other key alone and, when it completes, records each of its keys as a debit. */
  lemma {:induction false} AskEachWasteWrites(d: Dict, keys: seq<string>, lines: seq<string>, k: string)
    ensures var r := AskEachWaste(d, keys, lines);
      && (k !in keys ==> Lookup(r.data, k) == Lookup(d, k))
      && (r.status.Ok? && k in keys ==> Lookup(r.data, k).Some? && Lookup(r.data, k).value.PyInt? && Lookup(r.data, k).value.i <= 0)
    decreases |keys|
  {
    if keys != [] {
      var (o, n) := Retry(lines, WasteEntry);
      if o.Ok? {
        AskEachWasteWrites(Put(d, keys[0], PyInt(o.value)), keys[1..], lines[n..], k);
      }
    }
  }

  /** A completed run of waste questions adds its keys after the existing ones, in order. */
  lemma {:induction false} AskEachWasteKeys(d: Dict, keys: seq<string>, lines: seq<string>)
    ensures var r := AskEachWaste(d, keys, lines);
      r.status.Ok? ==> Keys(r.data) == Dedup(Keys(d) + keys)
    decreases |keys|
  {
    if keys == [] {
      assert Keys(d) + keys == Keys(d);
      DedupTwice(KeysOf(d.writes));
    } else {
      var (o, n) := Retry(lines, WasteEntry);
      if o.Ok? {
        AskEachWasteKeys(Put(d, keys[0], PyInt(o.value)), keys[1..], lines[n..]);
        PutThenKeys(d, keys[0], PyInt(o.value), keys[1..]);
        assert [keys[0]] + keys[1..] == keys;
      }
    }
  }

  /** A waste question that runs out of input ends the run with nothing more recorded. */
  lemma AskEachWasteStops(d: Dict, keys: seq<string>, lines: seq<string>, e: Exc, n: nat)
    requires keys != [] && Retry(lines, WasteEntry) == (Raised(e), n)
    ensures AskEachWaste(d, keys, lines) == After(d, Raised(e), n)
  {
  }

  /** The waste question for `keys[i]`, answered with `v` on reading `n` lines from `lines[u..]`, records it and goes on. */
  lemma AskEachWasteStep(d: Dict, keys: seq<string>, lines: seq<string>, i: nat, u: nat, v: int, n: nat, i': nat, u': nat)
    requires i < |keys| && u <= |lines| && Retry(lines[u..], WasteEntry) == (Ok(v), n)
    requires i' == i + 1 && u' == u + n
    ensures u' <= |lines|
    ensures AskEachWaste(d, keys[i..], lines[u..]) == AfterReading(n, AskEachWaste(Put(d, keys[i], PyInt(v)), keys[i'..], lines[u'..]))
  {
    assert keys[i..][1..] == keys[i'..];
    assert lines[u..][n..] == lines[u'..];
  }

  /** The loop of `_get_waste_totals`: one figure per key, each recorded as soon as it is entered. */
  method AskWastes(data: DataDict, keys: seq<string>, lines: seq<string>) returns (status: Outcome<()>, used: nat)
    modifies data
    ensures After(data.items, status, used) == AskEachWaste(old(data.items), keys, lines)
  {
    used := 0;
    var i := 0;
    while i < |keys|
      invariant 0 <= i <= |keys| && used <= |lines|
      invariant AskEachWaste(old(data.items), keys, lines) == AfterReading(used, AskEachWaste(data.items, keys[i..], lines[used..]))
    {
      ghost var d := data.items;
      var v, n := GetWasteInputFromUser(lines[used..]);
      if v.Raised? {
        AskEachWasteStops(d, keys[i..], lines[used..], v.exc, n);
        return Raised(v.exc), used + n;
      }
      data.Set(keys[i], PyInt(v.value));
      ghost var i0, u0 := i, used;
      used := used + n;
      i := i + 1;
      AskEachWasteStep(d, keys, lines, i0, u0, v.value, n, i, used);
    }
    status := Ok(());
  }

  method GetWasteTotals(data: DataDict, lines: seq<string>) returns (status: Outcome<()>, used: nat)
    modifies data
    ensures After(data.items, status, used) == WasteTotals(old(data.items), lines)
  {
    status, used := AskWastes(data, WasteKeys, lines);
  }

  // ---------------------------------------------------------------- reporting period

  type Month = m: int | 1 <= m <= 12 witness 1

  /** `date.year`'s range. */
  type Year = y: int | 1 <= y <= 9999 witness 1

  datatype Date = Date(year: Year, month: Month)

  /** `calendar.month_name[1..]`. */
  const MonthNames: seq<string> := ["January", "February", "March", "April", "May", "June",
    "July", "August", "September", "October", "November", "December"]

  /** The calendar month before `today`'s: its month number and year. */
  function PreviousMonth(today: Date): (r: (int, nat))
    ensures 1 <= r.0 <= 12
    ensures r.1 * 12 + (r.0 - 1) + 1 == today.year * 12 + (today.month - 1)
  {
    var month := if today.month != 1 then today.month - 1 else 12;
    var year := if month != 12 then today.year else today.year - 1;
    (month, year)
  }

  /** `_get_reporting_month_year`: the previous month's name, and its year as the header text "<year>.0". */
  function ReportingMonthYear(today: Date): (r: (string, string))
    ensures r.0 in MonthNames
  {
    var (month, year) := PreviousMonth(today);
    (MonthNames[month - 1], NatToString(year) + ".0")
  }

  /** January reports on December of the year before; every other month on the month before it. */
  lemma ReportingMonthYearCases(today: Date)
    ensures today.month == 1 ==> ReportingMonthYear(today) == ("December", NatToString(today.year - 1) + ".0")
    ensures today.month != 1 ==> ReportingMonthYear(today) == (MonthNames[today.month - 2], NatToString(today.year) + ".0")
  {
  }

  lemma YearTexts()
    ensures NatToString(2023) == "2023" && NatToString(2024) == "2024"
  {
    assert NatToString(20) == NatToString(2) + [Digit(0)];
    assert NatToString(202) == NatToString(20) + [Digit(2)];
    assert NatToString(2023) == NatToString(202) + [Digit(3)];
    assert NatToString(2024) == NatToString(202) + [Digit(4)];
  }

  lemma ReportingMonthYearExamples()
    ensures ReportingMonthYear(Date(2024, 1)) == ("December", "2023.0")
    ensures ReportingMonthYear(Date(2024, 3)) == ("February", "2024.0")
  {
    YearTexts();
    assert PreviousMonth(Date(2024, 1)) == (12, 2023);
    assert PreviousMonth(Date(2024, 3)) == (2, 2024);
    assert MonthNames[11] == "December" && MonthNames[1] == "February";
    assert "2023" + ".0" == "2023.0" && "2024" + ".0" == "2024.0";
  }

  // ---------------------------------------------------------------- statistics

  /** `float(v)`. */
  function ToFloat(v: PyValue): Outcome<real>
  {
    match v
    case PyNone => Raised(TypeError)
    case PyInt(i) => Ok(i as real)
    case PyFloat(f) => Ok(f)
    case PyStr(s) => match ParseFloat(s) case Some(x) => Ok(x) case None => Raised(ValueError)
  }

  /** `_read_stats_file`: the monthly figure as a percentage, "Not Found" for an absent cell. */
  function ReadStatsFile(stats: Sheet, reportMonth: string, reportYear: string): (r: Outcome<PyValue>)
    ensures var cell := stats(ByHeaders(reportYear, reportMonth));
      && (r == Ok(PyStr("Not Found")) <==> cell == PyNone)
      && (ToFloat(cell).Ok? ==> r == Ok(PyFloat(ToFloat(cell).value * 100.0)))
      && (r.Raised? <==> cell.PyStr? && ParseFloat(cell.s).None?)
      && (r.Raised? ==> r.exc == ValueError)
  {
    match ToFloat(stats(ByHeaders(reportYear, reportMonth)))
    case Ok(x) => Ok(PyFloat(x * 100.0))
    case Raised(e) => if e == TypeError then Ok(PyStr("Not Found")) else Raised(e)
  }

  /** The characters `"Total Jobs: ".strip` removes from either end (a set, not a prefix). */
  const JobsLabelChars: set<char> := {'T', 'o', 't', 'a', 'l', ' ', 'J', 'b', 's', ':'}

  /** `_read_jobs_file`. Only a text cell can be stripped; anything else raises AttributeError. */
  function ReadJobsFile(jobs: Sheet): (r: Outcome<PyValue>)
    ensures r.Ok? ==> r.value.PyInt?
    ensures var cell := jobs(Matching("A", "Total Jobs: ", "A", 9));
      && (!cell.PyStr? ==> r == Raised(AttributeError))
      && (cell.PyStr? ==> r == match ParseInt(Strip(cell.s, JobsLabelChars))
                              case Some(n) => Ok(PyInt(n)) case None => Raised(ValueError))
  {
    match jobs(Matching("A", "Total Jobs: ", "A", 9))
    case PyStr(s) =>
      (match ParseInt(Strip(s, JobsLabelChars)) case Some(n) => Ok(PyInt(n)) case None => Raised(ValueError))
    case _ => Raised(AttributeError)
  }

  /** The strip is by character set, so a trailing "Total" goes too. */
  lemma JobsStripExample(cell: string)
    requires cell == "Total Jobs: 42 Total"
    ensures Strip(cell, JobsLabelChars) == "42"
  {
    forall k | 0 <= k < 12 ensures cell[k] in JobsLabelChars { }
    forall k | 14 <= k < |cell| ensures cell[k] in JobsLabelChars { }
    StripBetween(cell, JobsLabelChars, 12, 14);
  }

  function AsFloat(s: string): Option<PyValue>
  {
    match ParseFloat(s) case Some(x) => Some(PyFloat(x)) case None => None
  }

  function AsInt(s: string): (r: Option<PyValue>)
    ensures r.Some? ==> r.value.PyInt?
  {
    match ParseInt(s) case Some(n) => Some(PyInt(n)) case None => None
  }

  /**
   * `_get_user_input`. Its loop catches only TypeError, which converting text
   * never raises, so it reads one line: a figure, or the ValueError of bad text.
   */
  function UserInput(lines: seq<string>, returnType: string): (r: (Outcome<PyValue>, nat))
    ensures r.1 == if |lines| == 0 then 0 else 1
    ensures r.0.Raised? ==> r.0.exc == EOFError || r.0.exc == ValueError
    ensures r.0.Ok? ==> |lines| > 0 && Some(r.0.value) == (if returnType == "f" then AsFloat(lines[0]) else AsInt(lines[0]))
    ensures |lines| > 0 && returnType == "f" && AsFloat(lines[0]).None? ==> r.0 == Raised(ValueError)
  {
    ReadOnce(lines, if returnType == "f" then AsFloat else AsInt, ValueError)
  }

  method GetUserInput(lines: seq<string>, returnType: string) returns (r: Outcome<PyValue>, used: nat)
    ensures (r, used) == UserInput(lines, returnType)
    ensures used == (if |lines| == 0 then 0 else 1)
    ensures r.Ok? ==> Some(r.value) == (if returnType == "f" then AsFloat(lines[0]) else AsInt(lines[0]))
  {
    if |lines| == 0 {
      return Raised(EOFError), 0;
    }
    var entry := lines[0];
    used := 1;
    var v := if returnType == "f" then AsFloat(entry) else AsInt(entry);
    r := if v.Some? then Ok(v.value) else Raised(ValueError);
  }

  /** One statistic: from its workbook when that is open, otherwise asked for as a float. */
  function StatOrAsk(file: Option<Sheet>, reportMonth: string, reportYear: string, lines: seq<string>): (r: (Outcome<PyValue>, nat))
    ensures r.1 <= |lines|
    ensures file.Some? ==> r == (ReadStatsFile(file.value, reportMonth, reportYear), 0)
    ensures file.None? ==> r == UserInput(lines, "f")
  {
    match file
    case Some(stats) => (ReadStatsFile(stats, reportMonth, reportYear), 0)
    case None => UserInput(lines, "f")
  }

  /** The job count: from its workbook when that is open, otherwise asked for as an int. */
  function JobsOrAsk(file: Option<Sheet>, lines: seq<string>): (r: (Outcome<PyValue>, nat))
    ensures r.1 <= |lines|
    ensures r.0.Ok? ==> r.0.value.PyInt?
    ensures r.0.Raised? ==> r.0.exc != TypeError
    ensures file.Some? ==> r == (ReadJobsFile(file.value), 0)
    ensures file.None? ==> r == UserInput(lines, "i")
  {
    match file
    case Some(jobs) => (ReadJobsFile(jobs), 0)
    case None => UserInput(lines, "i")
  }

  /** The statistics the loop of `_get_production_stats` goes through, with the workbook of each. */
  function StatFiles(accuracy: Option<Sheet>, timeliness: Option<Sheet>): seq<(string, Option<Sheet>)>
  {
    [("Job Accuracy", accuracy), ("Job Timeliness", timeliness)]
  }

  /** Read or ask each statistic in turn, recording each as it comes. */
  function AskEachStat(d: Dict, files: seq<(string, Option<Sheet>)>, reportMonth: string, reportYear: string,
                       lines: seq<string>): (r: After)
    ensures r.used <= |lines|
    decreases |files|
  {
    if files == [] then After(d, Ok(()), 0)
    else
      var (v, n) := StatOrAsk(files[0].1, reportMonth, reportYear, lines);
      match v
      case Raised(e) => After(d, Raised(e), n)
      case Ok(x) =>
        var rest := AskEachStat(Put(d, files[0].0, x), files[1..], reportMonth, reportYear, lines[n..]);
        After(rest.data, rest.status, n + rest.used)
  }

  /**
   * `_get_production_stats`. The reporting month is only computed when a
   * statistics workbook is open, and only those workbooks use it, so it is
   * taken here unconditionally. Its handler turning a TypeError into "Error"
   * is kept, although no branch raises TypeError.
   */
  ghost function ProductionStats(d: Dict, accuracy: Option<Sheet>, timeliness: Option<Sheet>, copyJobs: Option<Sheet>,
                                 today: Date, lines: seq<string>): (r: After)
    ensures r.used <= |lines|
  {
    var (month, year) := ReportingMonthYear(today);
    var s := AskEachStat(d, StatFiles(accuracy, timeliness), month, year, lines);
    if s.status.Raised? then s
    else
      var (j, n) := JobsOrAsk(copyJobs, lines[s.used..]);
      match j
      case Ok(v) => After(Put(s.data, "Number of Jobs", v), Ok(()), s.used + n)
      case Raised(e) =>
        if e == TypeError then After(Put(s.data, "Number of Jobs", PyStr("Error")), Ok(()), s.used + n)
        else After(s.data, Raised(e), s.used + n)
  }

  /** Reading statistics leaves every other key alone and, when it completes, has recorded each of its keys. */
  lemma {:induction false} AskEachStatWrites(d: Dict, files: seq<(string, Option<Sheet>)>, reportMonth: string,
                                             reportYear: string, lines: seq<string>, k: string)
    ensures var r := AskEachStat(d, files, reportMonth, reportYear, lines);
      && (k !in KeysOf(files) ==> Lookup(r.data, k) == Lookup(d, k))
      && (r.status.Ok? && k in KeysOf(files) ==> Lookup(r.data, k).Some?)
    decreases |files|
  {
    if files != [] {
      KeysOfLength(files);
      KeysOfLength(files[1..]);
      assert KeysOf(files) == [files[0].0] + KeysOf(files[1..]);
      var (v, n) := StatOrAsk(files[0].1, reportMonth, reportYear, lines);
      if v.Ok? {
        AskEachStatWrites(Put(d, files[0].0, v.value), files[1..], reportMonth, reportYear, lines[n..], k);
      }
    }
  }

  const StatsKeys: seq<string> := ["Job Accuracy", "Job Timeliness", "Number of Jobs"]

  /** The statistics touch only their three keys, and a completed run has recorded all three. */
  lemma StatsWrites(d: Dict, accuracy: Option<Sheet>, timeliness: Option<Sheet>, copyJobs: Option<Sheet>,
                    today: Date, lines: seq<string>, k: string)
    ensures var r := ProductionStats(d, accuracy, timeliness, copyJobs, today, lines);
      && (k !in StatsKeys ==> Lookup(r.data, k) == Lookup(d, k))
      && (r.status.Ok? && k in StatsKeys ==> Lookup(r.data, k).Some?)
  {
    var (month, year) := ReportingMonthYear(today);
    var files := StatFiles(accuracy, timeliness);
    KeysOfLength(files);
    assert k in KeysOf(files) <==> k == StatsKeys[0] || k == StatsKeys[1];
    assert k in StatsKeys <==> k == StatsKeys[0] || k == StatsKeys[1] || k == StatsKeys[2];
    var st := AskEachStat(d, files, month, year, lines);
    AskEachStatWrites(d, files, month, year, lines, k);
    if st.status.Ok? {
      var (j, n) := JobsOrAsk(copyJobs, lines[st.used..]);
      if j.Ok? {
        LookupPut(st.data, StatsKeys[2], j.value, k);
      }
    }
  }

  /** With all three workbooks open, the statistics are read from them and no console line is consumed. */
  lemma StatsFromWorkbooks(d: Dict, accuracy: Sheet, timeliness: Sheet, copyJobs: Sheet, today: Date, lines: seq<string>)
    ensures ProductionStats(d, Some(accuracy), Some(timeliness), Some(copyJobs), today, lines).used == 0
  {
    var (month, year) := ReportingMonthYear(today);
    var files: seq<(string, Option<Sheet>)> := StatFiles(Some(accuracy), Some(timeliness));
    var a := ReadStatsFile(accuracy, month, year);
    if a.Ok? {
      var d1 := Put(d, "Job Accuracy", a.value);
      assert |files[1..][1..]| == 0;
      assert AskEachStat(d1, files[1..], month, year, lines).used == 0;
    }
  }

  /**
   * Without its workbook, accuracy is asked for once: a line that is not a
   * number ends the procedure with ValueError and is not asked again.
   */
  lemma AccuracyAskedOnce(d: Dict, timeliness: Option<Sheet>, copyJobs: Option<Sheet>, today: Date, lines: seq<string>)
    requires |lines| > 0 && AsFloat(lines[0]).None?
    ensures ProductionStats(d, None, timeliness, copyJobs, today, lines) == After(d, Raised(ValueError), 1)
  {
    var (month, year) := ReportingMonthYear(today);
    assert StatOrAsk(None, month, year, lines) == (Raised(ValueError), 1);
  }

  /** With its workbook open, the recorded accuracy is the workbook's figure for the reporting month. */
  lemma AccuracyFromWorkbook(d: Dict, accuracy: Sheet, timeliness: Option<Sheet>, copyJobs: Option<Sheet>,
                             today: Date, lines: seq<string>)
    ensures var r := ProductionStats(d, Some(accuracy), timeliness, copyJobs, today, lines);
      var (month, year) := ReportingMonthYear(today);
      r.status.Ok? ==> Lookup(r.data, "Job Accuracy") == Some(ReadStatsFile(accuracy, month, year).value)
  {
    var (month, year) := ReportingMonthYear(today);
    var files := StatFiles(Some(accuracy), timeliness);
    var a := ReadStatsFile(accuracy, month, year);
    if a.Ok? {
      var d1 := Put(d, "Job Accuracy", a.value);
      var s := AskEachStat(d1, files[1..], month, year, lines);
      AskEachStatWrites(d1, files[1..], month, year, lines, "Job Accuracy");
      assert KeysOf(files[1..]) == ["Job Timeliness"];
    }
  }

  /** With its workbook open, the recorded job count is the one read from the workbook. */
  lemma JobsFromWorkbook(d: Dict, accuracy: Option<Sheet>, timeliness: Option<Sheet>, copyJobs: Sheet,
                         today: Date, lines: seq<string>)
    ensures var r := ProductionStats(d, accuracy, timeliness, Some(copyJobs), today, lines);
      r.status.Ok? ==> ReadJobsFile(copyJobs).Ok? && Lookup(r.data, "Number of Jobs") == Some(ReadJobsFile(copyJobs).value)
  {
    var (month, year) := ReportingMonthYear(today);
    var st := AskEachStat(d, StatFiles(accuracy, timeliness), month, year, lines);
    if st.status.Ok? {
      var j := ReadJobsFile(copyJobs);
      if j.Ok? {
        LookupPut(st.data, "Number of Jobs", j.value, "Number of Jobs");
      }
    }
  }

  /** "Number of Jobs" is always a number: neither "Not Found" nor "Error" can be recorded for it. */
  lemma JobsAlwaysNumeric(d: Dict, accuracy: Option<Sheet>, timeliness: Option<Sheet>, copyJobs: Option<Sheet>,
                          today: Date, lines: seq<string>)
    ensures var r := ProductionStats(d, accuracy, timeliness, copyJobs, today, lines);
      r.status.Ok? ==> Lookup(r.data, "Number of Jobs").Some? && Lookup(r.data, "Number of Jobs").value.PyInt?
  {
  }

  method ReadStats(stats: Sheet, reportMonth: string, reportYear: string) returns (r: Outcome<PyValue>)
    ensures r == ReadStatsFile(stats, reportMonth, reportYear)
  {
    var f := ToFloat(stats(ByHeaders(reportYear, reportMonth)));
    if f.Ok? {
      r := Ok(PyFloat(f.value * 100.0));
    } else if f.exc == TypeError {
      r := Ok(PyStr("Not Found"));
    } else {
      r := Raised(f.exc);
    }
  }

  /** One iteration of the statistics loop: the workbook's figure, or the answer to one question. */
  method ReadStatOrAsk(file: Option<Sheet>, reportMonth: string, reportYear: string, lines: seq<string>)
    returns (r: Outcome<PyValue>, used: nat)
    ensures (r, used) == StatOrAsk(file, reportMonth, reportYear, lines)
  {
    if file.Some? {
      r := ReadStats(file.value, reportMonth, reportYear);
      used := 0;
    } else {
      r, used := GetUserInput(lines, "f");
    }
  }

  /** Without any workbook the statistics never look at the reporting period. */
  lemma {:induction false} AskEachStatIgnoresPeriod(d: Dict, files: seq<(string, Option<Sheet>)>, month1: string, year1: string,
                                                    month2: string, year2: string, lines: seq<string>)
    requires forall i :: 0 <= i < |files| ==> files[i].1.None?
    ensures AskEachStat(d, files, month1, year1, lines) == AskEachStat(d, files, month2, year2, lines)
    decreases |files|
  {
    if files != [] {
      var (v, n) := StatOrAsk(files[0].1, month1, year1, lines);
      if v.Ok? {
        AskEachStatIgnoresPeriod(Put(d, files[0].0, v.value), files[1..], month1, year1, month2, year2, lines[n..]);
      }
    }
  }

  /** A statistic that fails ends the loop with nothing more recorded. */
  lemma AskEachStatStops(d: Dict, files: seq<(string, Option<Sheet>)>, reportMonth: string, reportYear: string,
                         lines: seq<string>, e: Exc, n: nat)
    requires files != [] && StatOrAsk(files[0].1, reportMonth, reportYear, lines) == (Raised(e), n)
    ensures AskEachStat(d, files, reportMonth, reportYear, lines) == After(d, Raised(e), n)
  {
  }

  /** The statistic `files[i]`, obtained as `x` on reading `n` lines from `lines[u..]`, is recorded under its key, and the loop goes on. */
  lemma AskEachStatStep(d: Dict, files: seq<(string, Option<Sheet>)>, reportMonth: string, reportYear: string,
                        lines: seq<string>, i: nat, u: nat, x: PyValue, n: nat, i': nat, u': nat)
    requires i < |files| && u <= |lines| && StatOrAsk(files[i].1, reportMonth, reportYear, lines[u..]) == (Ok(x), n)
    requires i' == i + 1 && u' == u + n
    ensures u' <= |lines|
    ensures AskEachStat(d, files[i..], reportMonth, reportYear, lines[u..])
      == AfterReading(n, AskEachStat(Put(d, files[i].0, x), files[i'..], reportMonth, reportYear, lines[u'..]))
  {
    assert files[i..][1..] == files[i'..];
    assert lines[u..][n..] == lines[u'..];
  }

  /** The loop of `_get_production_stats` over its statistics. */
  method AskStats(data: DataDict, files: seq<(string, Option<Sheet>)>, reportMonth: string, reportYear: string,
                  lines: seq<string>) returns (status: Outcome<()>, used: nat)
    modifies data
    ensures After(data.items, status, used) == AskEachStat(old(data.items), files, reportMonth, reportYear, lines)
  {
    used := 0;
    var i := 0;
    while i < |files|
      invariant 0 <= i <= |files| && used <= |lines|
      invariant AskEachStat(old(data.items), files, reportMonth, reportYear, lines)
        == AfterReading(used, AskEachStat(data.items, files[i..], reportMonth, reportYear, lines[used..]))
    {
      ghost var d := data.items;
      var (key, file) := files[i];
      var v, n := ReadStatOrAsk(file, reportMonth, reportYear, lines[used..]);
      if v.Raised? {
        AskEachStatStops(d, files[i..], reportMonth, reportYear, lines[used..], v.exc, n);
        return Raised(v.exc), used + n;
      }
      data.Set(key, v.value);
      ghost var i0, u0 := i, used;
      used := used + n;
      i := i + 1;
      AskEachStatStep(d, files, reportMonth, reportYear, lines, i0, u0, v.value, n, i, used);
    }
    status := Ok(());
  }

  /** The job count, from its workbook or asked for. */
  method ReadJobsOrAsk(file: Option<Sheet>, lines: seq<string>) returns (r: Outcome<PyValue>, used: nat)
    ensures (r, used) == JobsOrAsk(file, lines)
  {
    if file.Some? {
      r := ReadJobsFile(file.value);
      used := 0;
    } else {
      r, used := GetUserInput(lines, "i");
    }
  }

  method GetProductionStats(accuracy: Option<Sheet>, timeliness: Option<Sheet>, copyJobs: Option<Sheet>,
                            data: DataDict, today: Date, lines: seq<string>) returns (status: Outcome<()>, used: nat)
    modifies data
    ensures After(data.items, status, used) == ProductionStats(old(data.items), accuracy, timeliness, copyJobs, today, lines)
  {
    var files := StatFiles(accuracy, timeliness);
    var month, year := "", "";
    if accuracy.Some? || timeliness.Some? {
      month, year := ReportingMonthYear(today).0, ReportingMonthYear(today).1;
    } else {
      AskEachStatIgnoresPeriod(data.items, files, month, year, ReportingMonthYear(today).0, ReportingMonthYear(today).1, lines);
    }
    status, used := AskStats(data, files, month, year, lines);
    if status.Raised? {
      return;
    }
    var v, n := ReadJobsOrAsk(copyJobs, lines[used..]);
    used := used + n;
    if v.Raised? {
      // The `except TypeError` that would record "Error" never fires: neither source of the count raises TypeError.
      return Raised(v.exc), used;
    }
    data.Set("Number of Jobs", v.value);
    status := Ok(());
  }

  // ---------------------------------------------------------------- the whole domain

  /** The part of `calculate_production_totals` after the meter totals: waste, then statistics. */
  ghost function WasteThenStats(d: Dict, accuracy: Option<Sheet>, timeliness: Option<Sheet>, copyJobs: Option<Sheet>,
                                today: Date, lines: seq<string>): After
  {
    var w := WasteTotals(d, lines);
    if w.status.Raised? then w
    else
      var s := ProductionStats(w.data, accuracy, timeliness, copyJobs, today, lines[w.used..]);
      After(s.data, s.status, w.used + s.used)
  }

  /** Waste followed by statistics, once both runs are known. */
  lemma WasteThenStatsSteps(d: Dict, accuracy: Option<Sheet>, timeliness: Option<Sheet>, copyJobs: Option<Sheet>,
                            today: Date, lines: seq<string>, w: After, st: After)
    requires w == WasteTotals(d, lines) && w.status.Ok?
    requires st == ProductionStats(w.data, accuracy, timeliness, copyJobs, today, lines[w.used..])
    ensures WasteThenStats(d, accuracy, timeliness, copyJobs, today, lines) == AfterReading(w.used, st)
  {
  }

  /** `calculate_production_totals`: volumes, then waste, then statistics; an exception ends it. */
  ghost function ProductionTotals(d: Dict, meters: Sheet, accuracy: Option<Sheet>, timeliness: Option<Sheet>,
                                  copyJobs: Option<Sheet>, info: ProductionInfo, today: Date, lines: seq<string>): After
  {
    var v := ProductionVolumes(d, info, meters);
    if v.status.Raised? then v
    else WasteThenStats(v.data, accuracy, timeliness, copyJobs, today, lines)
  }

  /** A production run whose volume step succeeded goes on with waste and statistics. */
  lemma ProductionTotalsSteps(d: Dict, meters: Sheet, accuracy: Option<Sheet>, timeliness: Option<Sheet>,
                              copyJobs: Option<Sheet>, info: ProductionInfo, today: Date, lines: seq<string>, d1: Dict)
    requires ProductionVolumes(d, info, meters) == After(d1, Ok(()), 0)
    ensures ProductionTotals(d, meters, accuracy, timeliness, copyJobs, info, today, lines)
      == WasteThenStats(d1, accuracy, timeliness, copyJobs, today, lines)
  {
  }

  /** Waste that runs out of input ends the run. */
  lemma WasteThenStatsStops(d: Dict, accuracy: Option<Sheet>, timeliness: Option<Sheet>, copyJobs: Option<Sheet>,
                            today: Date, lines: seq<string>, w: After)
    requires w == WasteTotals(d, lines) && w.status.Raised?
    ensures WasteThenStats(d, accuracy, timeliness, copyJobs, today, lines) == w
  {
  }

  lemma WasteKeysAreNoStats(k: string)
    ensures k in WasteKeys ==> k !in StatsKeys
  {
  }

  /** After waste and statistics complete, both waste figures are debits and all three statistics are recorded. */
  lemma WasteThenStatsRecorded(d: Dict, accuracy: Option<Sheet>, timeliness: Option<Sheet>, copyJobs: Option<Sheet>,
                               today: Date, lines: seq<string>, k: string)
    ensures var r := WasteThenStats(d, accuracy, timeliness, copyJobs, today, lines);
      r.status.Ok? ==>
        && (k in WasteKeys ==> Lookup(r.data, k).Some? && Lookup(r.data, k).value.PyInt? && Lookup(r.data, k).value.i <= 0)
        && (k in StatsKeys ==> Lookup(r.data, k).Some?)
        && Lookup(r.data, "Number of Jobs").Some? && Lookup(r.data, "Number of Jobs").value.PyInt?
  {
    var w := WasteTotals(d, lines);
    AskEachWasteWrites(d, WasteKeys, lines, k);
    if w.status.Ok? {
      var st := ProductionStats(w.data, accuracy, timeliness, copyJobs, today, lines[w.used..]);
      WasteThenStatsSteps(d, accuracy, timeliness, copyJobs, today, lines, w, st);
      StatsWrites(w.data, accuracy, timeliness, copyJobs, today, lines[w.used..], k);
      JobsAlwaysNumeric(w.data, accuracy, timeliness, copyJobs, today, lines[w.used..]);
      WasteKeysAreNoStats(k);
    } else {
      WasteThenStatsStops(d, accuracy, timeliness, copyJobs, today, lines, w);
    }
  }

  /** A completed production run holds both waste figures as debits, both statistics and a numeric job count. */
  lemma ProductionTotalsRecorded(d: Dict, meters: Sheet, accuracy: Option<Sheet>, timeliness: Option<Sheet>,
                                 copyJobs: Option<Sheet>, info: ProductionInfo, today: Date, lines: seq<string>, k: string)
    ensures var r := ProductionTotals(d, meters, accuracy, timeliness, copyJobs, info, today, lines);
      r.status.Ok? ==>
        && (k in WasteKeys ==> Lookup(r.data, k).Some? && Lookup(r.data, k).value.PyInt? && Lookup(r.data, k).value.i <= 0)
        && (k in StatsKeys ==> Lookup(r.data, k).Some?)
        && Lookup(r.data, "Number of Jobs").Some? && Lookup(r.data, "Number of Jobs").value.PyInt?
  {
    var v := ProductionVolumes(d, info, meters);
    if v.status.Ok? {
      WasteThenStatsRecorded(v.data, accuracy, timeliness, copyJobs, today, lines, k);
    }
  }

  /** The second half of `calculate_production_totals`: waste, then statistics. */
  method GetWasteThenStats(accuracy: Option<Sheet>, timeliness: Option<Sheet>, copyJobs: Option<Sheet>,
                           data: DataDict, today: Date, lines: seq<string>) returns (status: Outcome<()>, used: nat)
    modifies data
    ensures After(data.items, status, used) == WasteThenStats(old(data.items), accuracy, timeliness, copyJobs, today, lines)
  {
    var n: nat;
    status, n := GetWasteTotals(data, lines);
    if status.Raised? {
      WasteThenStatsStops(old(data.items), accuracy, timeliness, copyJobs, today, lines, After(data.items, status, n));
      return status, n;
    }
    ghost var w := After(data.items, status, n);
    var m: nat;
    status, m := GetProductionStats(accuracy, timeliness, copyJobs, data, today, lines[n..]);
    used := n + m;
    WasteThenStatsSteps(old(data.items), accuracy, timeliness, copyJobs, today, lines, w, After(data.items, status, m));
  }

  method CalculateProductionTotals(meters: Sheet, accuracy: Option<Sheet>, timeliness: Option<Sheet>, copyJobs: Option<Sheet>,
                                   data: DataDict, info: ProductionInfo, today: Date, lines: seq<string>)
    returns (status: Outcome<()>, used: nat)
    modifies data
    ensures After(data.items, status, used)
         == ProductionTotals(old(data.items), meters, accuracy, timeliness, copyJobs, info, today, lines)
  {
    status := ReadProductionVolumes(meters, data, info);
    if status.Raised? {
      return status, 0;
    }
    ProductionTotalsSteps(old(data.items), meters, accuracy, timeliness, copyJobs, info, today, lines, data.items);
    status, used := GetWasteThenStats(accuracy, timeliness, copyJobs, data, today, lines);
  }
}
