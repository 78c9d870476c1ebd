/**
 * The fleet domain: the black-and-white and colour fleet volumes, read from
 * the text of the executive summary's first page, or asked for when that
 * text yields nothing.
 *
 * The PDF reader and the two regular expressions are not modelled: the page
 * text is an input (`None` when the PDF cannot be read), and so is the
 * group-2 capture each expression's search of that text produces (`None`
 * when the search finds nothing, which makes `.group(2)` raise
 * AttributeError).
 */
module FleetCalc {
  import opened Builtins
  import opened Dicts

  // ---------------------------------------------------------------- thousands separators

  /** `s` with every comma taken out, as a reference for `.replace(",", "")`. */
  function DropCommas(s: string): (r: string)
    ensures ',' !in r
    ensures |r| <= |s|
  {
    if s == [] then [] else (if s[0] == ',' then [] else [s[0]]) + DropCommas(s[1..])
  }

  /** `.replace(",", "")`. */
  function RemoveCommas(s: string): string
  {
    Replace(s, ",", "")
  }

  /** Replacing "," by "" keeps every other character, in order, and nothing else. */
  lemma {:induction false} RemoveCommasDrops(s: string)
    ensures RemoveCommas(s) == DropCommas(s)
    decreases |s|
  {
    if s != [] {
      RemoveCommasDrops(s[1..]);
      if s[..1] == "," {
        assert s[1..] == s[|","|..];
      }
    }
  }

  lemma {:induction false} DropCommasAppend(a: string, b: string)
    ensures DropCommas(a + b) == DropCommas(a) + DropCommas(b)
    decreases |a|
  {
    if a != [] {
      assert (a + b)[1..] == a[1..] + b;
      DropCommasAppend(a[1..], b);
    } else {
      assert a + b == b;
    }
  }

  lemma {:induction false} DropCommasNone(s: string)
    requires ',' !in s
    ensures DropCommas(s) == s
    decreases |s|
  {
    if s != [] {
      DropCommasNone(s[1..]);
      assert s == [s[0]] + s[1..];
    }
  }

  lemma AllDigitsAppend(a: string, b: string)
    requires AllDigits(a) && AllDigits(b)
    ensures AllDigits(a + b)
  {
    forall i | 0 <= i < |a + b| ensures IsDigit((a + b)[i]) {
      if i >= |a| {
        assert (a + b)[i] == b[i - |a|];
      }
    }
  }

  lemma ShiftDigit(x: int, p: int, y: int, z: int)
    ensures (x * p + y) * 10 + z == x * (p * 10) + (y * 10 + z)
  {
  }

  lemma {:induction false} DigitsValueAppend(a: string, b: string)
    requires AllDigits(a) && AllDigits(b)
    ensures AllDigits(a + b)
    ensures DigitsValue(a + b) == DigitsValue(a) * Pow10(|b|) + DigitsValue(b)
    decreases |b|
  {
    AllDigitsAppend(a, b);
    if b == [] {
      assert a + b == a;
    } else {
      var p, x := b[..|b| - 1], b[|b| - 1];
      DigitsValueAppend(a, p);
      var s := a + b;
      assert s[..|s| - 1] == a + p;
      assert s[|s| - 1] == x;
      ShiftDigit(DigitsValue(a), Pow10(|p|), DigitsValue(p), DigitValue(x));
    }
  }

  lemma ParseIntDigits(t: string)
    requires IsNumeric(t)
    ensures ParseInt(t) == Some(DigitsValue(t))
  {
    assert IsDigit(t[0]);
  }

  lemma NoCommaInDigits(s: string)
    requires AllDigits(s)
    ensures ',' !in s
  {
    forall i | 0 <= i < |s| ensures s[i] != ',' {
      assert IsDigit(s[i]);
    }
  }

  lemma DropSeparator(a: string, b: string)
    requires ',' !in a && ',' !in b
    ensures RemoveCommas(a + [','] + b) == a + b
  {
    var s := a + [','] + b;
    RemoveCommasDrops(s);
    DropCommasAppend(a + [','], b);
    DropCommasAppend(a, [',']);
    assert [','][1..] == [];
    assert DropCommas([',']) == [];
    DropCommasNone(a);
    DropCommasNone(b);
    assert DropCommas(a + [',']) == a;
  }

  /** A figure printed with a thousands separator reads back as the whole number. */
  lemma ThousandsSeparator(a: string, b: string)
    requires IsNumeric(a) && AllDigits(b) && |b| == 3
    ensures ParseInt(RemoveCommas(a + [','] + b)) == Some(DigitsValue(a) * 1000 + DigitsValue(b))
  {
    NoCommaInDigits(a);
    NoCommaInDigits(b);
    DropSeparator(a, b);
    DigitsValueAppend(a, b);
    ParseIntDigits(a + b);
    assert Pow10(|b|) == 1000;
  }

  lemma CommaExample(cell: string)
    requires cell == "1,234"
    ensures ParseInt(RemoveCommas(cell)) == Some(1234)
  {
    assert cell == "1" + [','] + "234";
    ThousandsSeparator("1", "234");
    assert DigitsValue("23") == 23;
  }

  // ---------------------------------------------------------------- volumes from the page text

  /**
   * `_get_volumes_from_text`: both searches first (a failed one raises
   * AttributeError, which is not caught), then both conversions; if either
   * conversion fails, both volumes are 0.
   */
  function VolumesFromText(bw: Option<string>, color: Option<string>): (r: Outcome<(int, int)>)
    ensures r.Raised? <==> bw.None? || color.None?
    ensures r.Raised? ==> r.exc == AttributeError
    ensures r.Ok? ==>
      var b := ParseInt(RemoveCommas(bw.value));
      var c := ParseInt(RemoveCommas(color.value));
      && (b.Some? && c.Some? ==> r.value == (b.value, c.value))
      && (b.None? || c.None? ==> r.value == (0, 0))
  {
    if bw.None? || color.None? then Raised(AttributeError)
    else
      match (ParseInt(RemoveCommas(bw.value)), ParseInt(RemoveCommas(color.value)))
      case (Some(b), Some(c)) => Ok((b, c))
      case _ => Ok((0, 0))
  }

  /** No partial pair: whenever one capture fails to convert, neither figure survives. */
  lemma AllOrNothing(bw: string, color: string)
    requires ParseInt(RemoveCommas(bw)).None? || ParseInt(RemoveCommas(color)).None?
    ensures VolumesFromText(Some(bw), Some(color)) == Ok((0, 0))
  {
  }

  // ---------------------------------------------------------------- manual entry

  /**
   * `_get_totals_from_user`: ask for the black-and-white figure, then the
   * colour figure; if either fails to convert, start over with the
   * black-and-white one. The pair returned and the lines read.
   */
  function AskPair(lines: seq<string>): (r: (Outcome<(int, int)>, nat))
    ensures r.1 <= |lines|
    ensures r.0.Raised? ==> r.0.exc == EOFError && r.1 == |lines|
    ensures r.0.Ok? ==>
      (2 <= r.1 && ParseInt(lines[r.1 - 2]) == Some(r.0.value.0) && ParseInt(lines[r.1 - 1]) == Some(r.0.value.1))
    decreases |lines|
  {
    if |lines| == 0 then (Raised(EOFError), 0)
    else match ParseInt(lines[0])
      case None => var (o, n) := AskPair(lines[1..]); (o, n + 1)
      case Some(b) =>
        if |lines| == 1 then (Raised(EOFError), 1)
        else match ParseInt(lines[1])
          case None => var (o, n) := AskPair(lines[2..]); (o, n + 2)
          case Some(c) => (Ok((b, c)), 2)
  }

  /** A figure that converts is kept only together with the one after it: a bad colour figure discards it. */
  lemma {:induction false} AskPairRestarts(lines: seq<string>, b: int)
    requires |lines| >= 2 && ParseInt(lines[0]) == Some(b) && ParseInt(lines[1]).None?
    ensures AskPair(lines).0 == AskPair(lines[2..]).0
    ensures AskPair(lines).1 == AskPair(lines[2..]).1 + 2
  {
  }

  lemma AskPairSkips(lines: seq<string>)
    requires |lines| >= 1 && ParseInt(lines[0]).None?
    ensures AskPair(lines).0 == AskPair(lines[1..]).0
    ensures AskPair(lines).1 == AskPair(lines[1..]).1 + 1
  {
  }

  method GetTotalsFromUser(lines: seq<string>) returns (r: Outcome<(int, int)>, used: nat)
    ensures (r, used) == AskPair(lines)
  {
    used := 0;
    while true
      invariant used <= |lines|
      invariant AskPair(lines).0 == AskPair(lines[used..]).0
      invariant AskPair(lines).1 == AskPair(lines[used..]).1 + used
      decreases |lines| - used
    {
      ghost var rest := lines[used..];
      if used == |lines| {
        return Raised(EOFError), used;
      }
      var bw := ParseInt(lines[used]);
      used := used + 1;
      if bw.None? {
        AskPairSkips(rest);
        assert rest[1..] == lines[used..];
        continue;
      }
      if used == |lines| {
        return Raised(EOFError), used;
      }
      var color := ParseInt(lines[used]);
      used := used + 1;
      if color.Some? {
        return Ok((bw.value, color.value)), used;
      }
      AskPairRestarts(rest, bw.value);
      assert rest[2..] == lines[used..];
    }
  }

  // ---------------------------------------------------------------- the fleet totals

  /** What the page yields before any question: `(0, 0)` when there is no text or it is empty. */
  function FoundVolumes(pageText: Option<string>, bw: Option<string>, color: Option<string>): (r: Outcome<(int, int)>)
    ensures pageText.None? || pageText.value == "" ==> r == Ok((0, 0))
    ensures pageText.Some? && pageText.value != "" ==> r == VolumesFromText(bw, color)
  {
    if pageText.Some? && pageText.value != "" then VolumesFromText(bw, color) else Ok((0, 0))
  }

  /** The two volumes recorded: those found, unless both are zero, in which case those entered. */
  function FleetVolumes(pageText: Option<string>, bw: Option<string>, color: Option<string>, lines: seq<string>)
    : (r: (Outcome<(int, int)>, nat))
    ensures FoundVolumes(pageText, bw, color) == Ok((0, 0)) ==> r == AskPair(lines)
    ensures FoundVolumes(pageText, bw, color).Ok? && FoundVolumes(pageText, bw, color) != Ok((0, 0))
      ==> r == (FoundVolumes(pageText, bw, color), 0)
    ensures FoundVolumes(pageText, bw, color).Raised? ==> r == (FoundVolumes(pageText, bw, color), 0)
  {
    match FoundVolumes(pageText, bw, color)
    case Raised(e) => (Raised(e), 0)
    case Ok(p) => if p.0 == 0 && p.1 == 0 then AskPair(lines) else (Ok(p), 0)
  }

  /** `calculate_fleet_totals` on `d`. */
  function FleetTotals(d: Dict, pageText: Option<string>, bw: Option<string>, color: Option<string>, lines: seq<string>)
    : After
  {
    var (o, n) := FleetVolumes(pageText, bw, color, lines);
    match o
    case Raised(e) => After(d, Raised(e), n)
    case Ok(p) => After(Put(Put(d, "Fleet Black and White", PyInt(p.0)), "Fleet Color", PyInt(p.1)), Ok(()), n)
  }

  const FleetKeys: seq<string> := ["Fleet Black and White", "Fleet Color"]

  /**
   * The user is asked exactly when both found volumes are zero; a completed
   * run records the two fleet keys after the existing ones and changes no
   * other key; a failed one changes nothing.
   */
  lemma FleetTotalsWrites(d: Dict, pageText: Option<string>, bw: Option<string>, color: Option<string>,
                          lines: seq<string>, k: string)
    ensures var r := FleetTotals(d, pageText, bw, color, lines);
      && (r.used > 0 ==> FoundVolumes(pageText, bw, color) == Ok((0, 0)))
      && (FoundVolumes(pageText, bw, color) == Ok((0, 0)) && |lines| > 0 ==> r.used > 0)
      && (r.status.Raised? ==> r.data == d)
      && (r.status.Ok? ==> Keys(r.data) == Dedup(Keys(d) + FleetKeys))
      && (r.status.Ok? ==> Lookup(r.data, "Fleet Black and White").Some? && Lookup(r.data, "Fleet Color").Some?)
      && (k !in FleetKeys ==> Lookup(r.data, k) == Lookup(d, k))
  {
    var (o, n) := FleetVolumes(pageText, bw, color, lines);
    if FoundVolumes(pageText, bw, color) == Ok((0, 0)) && |lines| > 0 {
      assert n == AskPair(lines).1;
    }
    if o.Ok? {
      var ws := [("Fleet Black and White", PyInt(o.value.0)), ("Fleet Color", PyInt(o.value.1))];
      assert Put(Put(d, "Fleet Black and White", PyInt(o.value.0)), "Fleet Color", PyInt(o.value.1)) == PutAll(d, ws);
      PutAllKeys(d, ws);
      KeysOfLength(ws);
      assert KeysOf(ws) == FleetKeys;
      PutAllLookup(d, ws, k);
      LastWriteKeys(ws, k);
      LookupPut(Put(d, "Fleet Black and White", PyInt(o.value.0)), "Fleet Color", PyInt(o.value.1), "Fleet Black and White");
      LookupPut(d, "Fleet Black and White", PyInt(o.value.0), "Fleet Black and White");
    }
  }

  /** A pair with a non-zero figure is recorded as found, and nothing is asked. */
  lemma FoundPairRecorded(d: Dict, page: string, bw: string, color: string, lines: seq<string>, b: int, c: int)
    requires page != "" && ParseInt(RemoveCommas(bw)) == Some(b) && ParseInt(RemoveCommas(color)) == Some(c)
    requires b != 0 || c != 0
    ensures var r := FleetTotals(d, Some(page), Some(bw), Some(color), lines);
      && r.status.Ok? && r.used == 0
      && Lookup(r.data, "Fleet Black and White") == Some(PyInt(b))
      && Lookup(r.data, "Fleet Color") == Some(PyInt(c))
  {
    LookupPut(Put(d, "Fleet Black and White", PyInt(b)), "Fleet Color", PyInt(c), "Fleet Black and White");
    LookupPut(d, "Fleet Black and White", PyInt(b), "Fleet Black and White");
  }

  /** `calculate_fleet_totals`. */
  method CalculateFleetTotals(data: DataDict, pageText: Option<string>, bw: Option<string>, color: Option<string>,
                              lines: seq<string>) returns (status: Outcome<()>, used: nat)
    modifies data
    ensures After(data.items, status, used) == FleetTotals(old(data.items), pageText, bw, color, lines)
  {
    var bwVolume := 0;
    var colorVolume := 0;
    used := 0;
    if pageText.Some? && pageText.value != "" {
      var found := VolumesFromText(bw, color);
      if found.Raised? {
        return Raised(found.exc), used;
      }
      bwVolume, colorVolume := found.value.0, found.value.1;
    }
    if bwVolume == 0 && colorVolume == 0 {
      var entered;
      entered, used := GetTotalsFromUser(lines);
      if entered.Raised? {
        return Raised(entered.exc), used;
      }
      bwVolume, colorVolume := entered.value.0, entered.value.1;
    }
    data.Set("Fleet Black and White", PyInt(bwVolume));
    data.Set("Fleet Color", PyInt(colorVolume));
    status := Ok(());
  }
}
