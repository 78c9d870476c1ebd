/**
 * The MPS (managed print services) domain: two device counts carried forward
 * from last month's output workbook, equipment adds and moves started at
 * zero, and the y/n questions that increase them.
 */
module MpsCalc {
  import opened Builtins
  import opened Dicts
  import opened Prompt
  import opened Xlsx

  const Ricoh := "Number of Ricoh Devices"
  const NonNetworked := "Number of Non-Networked Devices"
  const Adds := "Equipment Adds"
  const Moves := "Equipment Moves"

  /** The two counts carried forward, in the order they are read. */
  const CarriedKeys: seq<string> := [Ricoh, NonNetworked]

  /** The lookup for a carried-forward count: column A names it, column B holds it, from row 3. */
  function CarriedQuery(term: string): Query
  {
    Matching("A", term, "B", 3)
  }

  // ---------------------------------------------------------------- reading and zero starts

  /** `_read_mps_from_output_file` on `d`. */
  function ReadMps(d: Dict, book: Sheet): Dict
  {
    Put(Put(d, Ricoh, book(CarriedQuery(Ricoh))), NonNetworked, book(CarriedQuery(NonNetworked)))
  }

  /** `_set_zero_starts` on `d`. */
  function ZeroStarts(d: Dict): Dict
  {
    Put(Put(d, Adds, PyInt(0)), Moves, PyInt(0))
  }

  method ReadMpsFromOutputFile(book: Sheet, data: DataDict)
    modifies data
    ensures data.items == ReadMps(old(data.items), book)
  {
    for i := 0 to |CarriedKeys|
      invariant data.items == PutAll(old(data.items), seq(i, j requires 0 <= j < i => (CarriedKeys[j], book(CarriedQuery(CarriedKeys[j])))))
    {
      data.Set(CarriedKeys[i], book(CarriedQuery(CarriedKeys[i])));
    }
  }

  method SetZeroStarts(data: DataDict)
    modifies data
    ensures data.items == ZeroStarts(old(data.items))
  {
    data.Set(Adds, PyInt(0));
    data.Set(Moves, PyInt(0));
  }

  // ---------------------------------------------------------------- questions

  /** `_ask_for_changes` on one answer: its first character, lower-cased, must be `y` or `n`. */
  function YesNo(answer: string): (r: Option<bool>)
    ensures r.Some? <==> |answer| > 0 && LowerChar(answer[0]) in {'y', 'n'}
    ensures r.Some? ==> (r.value <==> LowerChar(answer[0]) == 'y')
  {
    if |answer| == 0 then None
    else if LowerChar(answer[0]) == 'y' then Some(true)
    else if LowerChar(answer[0]) == 'n' then Some(false)
    else None
  }

  lemma YesNoExamples()
    ensures YesNo("Yes") == Some(true) && YesNo("y") == Some(true)
    ensures YesNo("No") == Some(false) && YesNo("nope") == Some(false)
    ensures YesNo("") == None && YesNo("maybe") == None
  {
    assert "Yes"[0] == 'Y' && "No"[0] == 'N' && "maybe"[0] == 'm';
  }

  /** `_ask_for_changes`: re-asks until an answer starts with y or n. */
  method AskForChanges(lines: seq<string>) returns (r: Outcome<bool>, used: nat)
    ensures (r, used) == Retry(lines, YesNo)
    ensures r.Ok? ==> 0 < used && YesNo(lines[used - 1]) == Some(r.value)
  {
    r, used := AskUntilAccepted(lines, YesNo);
  }

  /** `_ask_for_new_numbers`: re-asks until `int()` accepts the text; negative counts are accepted. */
  method AskForNewNumbers(lines: seq<string>) returns (r: Outcome<int>, used: nat)
    ensures (r, used) == Retry(lines, ParseInt)
    ensures r.Ok? ==> 0 < used && ParseInt(lines[used - 1]) == Some(r.value)
  {
    r, used := AskUntilAccepted(lines, ParseInt);
  }

  // ---------------------------------------------------------------- increments

  /** `v + n` for an int `n`: numbers add, anything else raises TypeError. */
  function AddInt(v: PyValue, n: int): (r: Outcome<PyValue>)
    ensures r.Raised? <==> !(v.PyInt? || v.PyFloat?)
    ensures r.Raised? ==> r.exc == TypeError
    ensures v.PyInt? ==> r == Ok(PyInt(v.i + n))
  {
    match v
    case PyInt(i) => Ok(PyInt(i + n))
    case PyFloat(f) => Ok(PyFloat(f + n as real))
    case _ => Raised(TypeError)
  }

  /** `d[k] += n`: KeyError for a missing key, TypeError for a value that is not a number. */
  function Increment(d: Dict, k: string, n: int): (r: (Dict, Outcome<()>))
    ensures r.1.Raised? ==> r.0 == d
    ensures r.1.Raised? <==> Lookup(d, k).None? || AddInt(Lookup(d, k).value, n).Raised?
    ensures r.1.Ok? ==> r.0 == Put(d, k, AddInt(Lookup(d, k).value, n).value)
  {
    match Lookup(d, k)
    case None => (d, Raised(KeyError))
    case Some(v) =>
      match AddInt(v, n)
      case Ok(w) => (Put(d, k, w), Ok(()))
      case Raised(e) => (d, Raised(e))
  }

  /** The "added" branch: one count, added to the adds and then to the device count. */
  function AddedMachines(d: Dict, lines: seq<string>): (r: After)
    ensures r.used <= |lines|
  {
    var (o, n) := Retry(lines, ParseInt);
    match o
    case Raised(e) => After(d, Raised(e), n)
    case Ok(c) =>
      var (d1, s1) := Increment(d, Adds, c);
      if s1.Raised? then After(d1, s1, n)
      else var (d2, s2) := Increment(d1, Ricoh, c); After(d2, s2, n)
  }

  /**
   * The "moved" branch: one count, added to the moves only. The augmented
   * assignment reads the current moves before it prompts, so a missing key
   * raises KeyError with no line read.
   */
  function MovedMachines(d: Dict, lines: seq<string>): (r: After)
    ensures r.used <= |lines|
    ensures Lookup(d, Moves).None? ==> r == After(d, Raised(KeyError), 0)
  {
    if Lookup(d, Moves).None? then After(d, Raised(KeyError), 0)
    else
      var (o, n) := Retry(lines, ParseInt);
      match o
      case Raised(e) => After(d, Raised(e), n)
      case Ok(c) => var (d1, s1) := Increment(d, Moves, c); After(d1, s1, n)
  }

  /** What `_check_for_updates` does once both questions are answered. */
  function Changes(d: Dict, added: bool, moved: bool, lines: seq<string>): (r: After)
    ensures r.used <= |lines|
  {
    if !added && !moved then After(d, Ok(()), 0)
    else
      var r1 := if added then AddedMachines(d, lines) else After(d, Ok(()), 0);
      if r1.status.Raised? || !moved then r1
      else
        var r2 := MovedMachines(r1.data, lines[r1.used..]);
        After(r2.data, r2.status, r1.used + r2.used)
  }

  /** The two questions of `_check_for_updates`, "added?" then "moved?": both answers and the lines read for them. */
  function Answers(lines: seq<string>): (r: (Outcome<(bool, bool)>, nat))
    ensures r.1 <= |lines|
    ensures r.0.Raised? ==> r.0.exc == EOFError && r.1 == |lines|
    ensures r.0.Ok? ==> Retry(lines, YesNo).0 == Ok(r.0.value.0)
    ensures r.0.Ok? ==> 2 <= r.1 && YesNo(lines[r.1 - 1]) == Some(r.0.value.1)
  {
    var (a, n1) := Retry(lines, YesNo);
    if a.Raised? then (Raised(a.exc), n1)
    else
      var (m, n2) := Retry(lines[n1..], YesNo);
      if m.Raised? then (Raised(m.exc), n1 + n2) else (Ok((a.value, m.value)), n1 + n2)
  }

  /** `_check_for_updates` on `d`: both questions first, then the counts asked for. */
  function Updates(d: Dict, lines: seq<string>): (r: After)
    ensures r.used <= |lines|
  {
    var (q, n) := Answers(lines);
    match q
    case Raised(e) => After(d, Raised(e), n)
    case Ok(answers) => AfterReading(n, Changes(d, answers.0, answers.1, lines[n..]))
  }

  /** `calculate_mps_totals` on `d`. */
  function MpsTotals(d: Dict, book: Sheet, lines: seq<string>): After
  {
    Updates(ZeroStarts(ReadMps(d, book)), lines)
  }

  // ---------------------------------------------------------------- properties

  /** An increment touches only its own key, and never adds a key. */
  lemma IncrementFrame(d: Dict, k: string, n: int, j: string)
    ensures j != k ==> Lookup(Increment(d, k, n).0, j) == Lookup(d, j)
    ensures Keys(Increment(d, k, n).0) == Keys(d)
  {
    var (d1, s) := Increment(d, k, n);
    if s.Ok? {
      LookupPut(d, k, AddInt(Lookup(d, k).value, n).value, j);
      PutKeys(d, k, AddInt(Lookup(d, k).value, n).value);
      KeysLookup(d);
    }
  }

  lemma ChangesFrame(d: Dict, added: bool, moved: bool, lines: seq<string>, j: string)
    ensures var r := Changes(d, added, moved, lines);
      && Keys(r.data) == Keys(d)
      && (j != Adds && j != Moves && j != Ricoh ==> Lookup(r.data, j) == Lookup(d, j))
  {
    var r1 := if added then AddedMachines(d, lines) else After(d, Ok(()), 0);
    if added {
      var (o, n) := Retry(lines, ParseInt);
      if o.Ok? {
        var (d1, s1) := Increment(d, Adds, o.value);
        IncrementFrame(d, Adds, o.value, j);
        IncrementFrame(d1, Ricoh, o.value, j);
      }
    }
    if r1.status.Ok? && moved {
      var (o, n) := Retry(lines[r1.used..], ParseInt);
      if o.Ok? {
        IncrementFrame(r1.data, Moves, o.value, j);
      }
    }
  }

  /**
   * The update step never adds a key and changes no key but the adds, the
   * moves and the device count; in particular the non-networked count stays
   * as it was.
   */
  lemma UpdatesFrame(d: Dict, lines: seq<string>, j: string)
    ensures var r := Updates(d, lines);
      && Keys(r.data) == Keys(d)
      && (j != Adds && j != Moves && j != Ricoh ==> Lookup(r.data, j) == Lookup(d, j))
  {
    var (q, n) := Answers(lines);
    if q.Ok? {
      ChangesFrame(d, q.value.0, q.value.1, lines[n..], j);
    }
  }

  /** Two "no" answers, however many re-prompts they took, leave the figures exactly as they were. */
  lemma NoChangesNoUpdates(d: Dict, lines: seq<string>)
    ensures Answers(lines).0 == Ok((false, false)) ==> Updates(d, lines) == After(d, Ok(()), Answers(lines).1)
  {
  }

  /** A refused answer is asked again: "maybe", then "n", then "no" is two "no" answers on three lines. */
  lemma NoChangesAfterRetry(lines: seq<string>)
    requires lines == ["maybe", "n", "no"]
    ensures Answers(lines) == (Ok((false, false)), 3)
  {
    assert lines[0][0] == 'm' && lines[1][0] == 'n' && lines[2][0] == 'n';
    assert YesNo(lines[0]) == None && YesNo(lines[1]) == Some(false) && YesNo(lines[2]) == Some(false);
    assert lines[1..][0] == lines[1];
    assert Retry(lines[1..], YesNo) == (Ok(false), 1);
    assert Retry(lines, YesNo) == (Ok(false), 2);
    assert lines[2..][0] == lines[2];
    assert Retry(lines[2..], YesNo) == (Ok(false), 1);
  }

  /** The "added" branch adds the count typed to the adds and to the device count, and leaves the moves alone. */
  lemma AddedTracksDevices(d: Dict, lines: seq<string>, adds: int, devices: int)
    requires Lookup(d, Adds) == Some(PyInt(adds)) && Lookup(d, Ricoh) == Some(PyInt(devices))
    ensures var r := AddedMachines(d, lines);
      && (r.status.Raised? ==> r.status.exc == EOFError)
      && (r.status.Ok? ==>
            && Retry(lines, ParseInt).0.Ok?
            && Lookup(r.data, Adds) == Some(PyInt(adds + Retry(lines, ParseInt).0.value))
            && Lookup(r.data, Ricoh) == Some(PyInt(devices + Retry(lines, ParseInt).0.value)))
      && Lookup(r.data, Moves) == Lookup(d, Moves)
  {
    var (o, n) := Retry(lines, ParseInt);
    if o.Ok? {
      var c := o.value;
      var (d1, s1) := Increment(d, Adds, c);
      IncrementFrame(d, Adds, c, Ricoh);
      IncrementFrame(d, Adds, c, Moves);
      IncrementFrame(d1, Ricoh, c, Adds);
      IncrementFrame(d1, Ricoh, c, Moves);
      LookupPut(d, Adds, PyInt(adds + c), Adds);
      LookupPut(d1, Ricoh, PyInt(devices + c), Ricoh);
    }
  }

  /** The "moved" branch adds the count typed to the moves, and leaves the adds and the device count alone. */
  lemma MovedTracksMoves(d: Dict, lines: seq<string>, moves: int)
    requires Lookup(d, Moves) == Some(PyInt(moves))
    ensures var r := MovedMachines(d, lines);
      && (r.status.Raised? ==> r.status.exc == EOFError)
      && (r.status.Ok? ==>
            && Retry(lines, ParseInt).0.Ok?
            && Lookup(r.data, Moves) == Some(PyInt(moves + Retry(lines, ParseInt).0.value)))
      && Lookup(r.data, Adds) == Lookup(d, Adds) && Lookup(r.data, Ricoh) == Lookup(d, Ricoh)
  {
    var (o, n) := Retry(lines, ParseInt);
    if o.Ok? {
      IncrementFrame(d, Moves, o.value, Adds);
      IncrementFrame(d, Moves, o.value, Ricoh);
      LookupPut(d, Moves, PyInt(moves + o.value), Moves);
    }
  }

  /**
   * From the zero starts and a device count of `devices`, after the answers
   * `added` and `moved`: the adds hold the count typed at the adds prompt,
   * the moves the count typed at the moves prompt after it (each 0 for a
   * "no"), and the device count has grown by the adds.
   */
  ghost predicate Counted(d: Dict, added: bool, moved: bool, lines: seq<string>, devices: int)
  {
    var (a, na) := if added then Retry(lines, ParseInt) else (Ok(0), 0);
    var (m, nm) := if moved then Retry(lines[na..], ParseInt) else (Ok(0), 0);
    && a.Ok? && m.Ok?
    && Lookup(d, Adds) == Some(PyInt(a.value))
    && Lookup(d, Ricoh) == Some(PyInt(devices + a.value))
    && Lookup(d, Moves) == Some(PyInt(m.value))
  }

  /** From the zero starts, the update step records exactly the counts typed; it can fail only by running out of input. */
  lemma ChangesTrackDevices(z: Dict, added: bool, moved: bool, lines: seq<string>, devices: int)
    requires Lookup(z, Adds) == Some(PyInt(0)) && Lookup(z, Moves) == Some(PyInt(0))
    requires Lookup(z, Ricoh) == Some(PyInt(devices))
    ensures var r := Changes(z, added, moved, lines);
      && (r.status.Raised? ==> r.status.exc == EOFError)
      && (r.status.Ok? ==> Counted(r.data, added, moved, lines, devices))
  {
    var r1 := if added then AddedMachines(z, lines) else After(z, Ok(()), 0);
    if added {
      AddedTracksDevices(z, lines, 0, devices);
    }
    if r1.status.Ok? && moved {
      MovedTracksMoves(r1.data, lines[r1.used..], 0);
    }
  }

  /** The zero starts set the adds and the moves to 0 and leave every other key alone. */
  lemma ZeroStartsLookup(d: Dict, j: string)
    ensures Lookup(ZeroStarts(d), j) == if j == Adds || j == Moves then Some(PyInt(0)) else Lookup(d, j)
  {
    LookupPut(Put(d, Adds, PyInt(0)), Moves, PyInt(0), j);
    LookupPut(d, Adds, PyInt(0), j);
  }

  /** From the zero starts, a completed update records exactly the counts typed after the two answers. */
  lemma UpdatesTrackDevices(z: Dict, lines: seq<string>, devices: int)
    requires Lookup(z, Adds) == Some(PyInt(0)) && Lookup(z, Moves) == Some(PyInt(0))
    requires Lookup(z, Ricoh) == Some(PyInt(devices))
    ensures var r := Updates(z, lines);
      var (q, n) := Answers(lines);
      && (r.status.Ok? ==> q.Ok? && Counted(r.data, q.value.0, q.value.1, lines[n..], devices))
      && (r.status.Raised? ==> r.status.exc == EOFError)
  {
    var (q, n) := Answers(lines);
    if q.Ok? {
      ChangesTrackDevices(z, q.value.0, q.value.1, lines[n..], devices);
    }
  }

  /**
   * After the zero starts, a completed update records the adds and the moves
   * typed, and a device count read as an integer grows by exactly the adds;
   * the only exception left is EOFError.
   */
  lemma AddsTrackDevices(d: Dict, lines: seq<string>, devices: int)
    requires Lookup(d, Ricoh) == Some(PyInt(devices))
    ensures var r := Updates(ZeroStarts(d), lines);
      var (q, n) := Answers(lines);
      && (r.status.Ok? ==> q.Ok? && Counted(r.data, q.value.0, q.value.1, lines[n..], devices))
      && (r.status.Raised? ==> r.status.exc == EOFError)
  {
    ZeroStartsLookup(d, Ricoh);
    ZeroStartsLookup(d, Adds);
    ZeroStartsLookup(d, Moves);
    UpdatesTrackDevices(ZeroStarts(d), lines, devices);
  }

  /** A completed run holds the four MPS keys after the existing ones, and the non-networked count as read. */
  lemma MpsTotalsRecorded(d: Dict, book: Sheet, lines: seq<string>)
    ensures var r := MpsTotals(d, book, lines);
      && Keys(r.data) == Dedup(Keys(d) + [Ricoh, NonNetworked, Adds, Moves])
      && Lookup(r.data, NonNetworked) == Some(book(CarriedQuery(NonNetworked)))
  {
    var z := ZeroStarts(ReadMps(d, book));
    var ws := [(Ricoh, book(CarriedQuery(Ricoh))), (NonNetworked, book(CarriedQuery(NonNetworked))), (Adds, PyInt(0)), (Moves, PyInt(0))];
    assert z == PutAll(d, ws);
    PutAllKeys(d, ws);
    KeysOfLength(ws);
    assert KeysOf(ws) == [Ricoh, NonNetworked, Adds, Moves];
    UpdatesFrame(z, lines, NonNetworked);
    LookupPut(Put(ReadMps(d, book), Adds, PyInt(0)), Moves, PyInt(0), NonNetworked);
    LookupPut(ReadMps(d, book), Adds, PyInt(0), NonNetworked);
    LookupPut(Put(d, Ricoh, book(CarriedQuery(Ricoh))), NonNetworked, book(CarriedQuery(NonNetworked)), NonNetworked);
  }

  // ---------------------------------------------------------------- the procedure

  /** `data[k] += n`. */
  method IncrementKey(data: DataDict, k: string, n: int) returns (status: Outcome<()>)
    modifies data
    ensures (data.items, status) == Increment(old(data.items), k, n)
  {
    var v := data.Get(k);
    if v.Raised? {
      return Raised(v.exc);
    }
    var w := AddInt(v.value, n);
    if w.Raised? {
      return Raised(w.exc);
    }
    data.Set(k, w.value);
    status := Ok(());
  }

  method AddMachines(data: DataDict, lines: seq<string>) returns (status: Outcome<()>, used: nat)
    modifies data
    ensures After(data.items, status, used) == AddedMachines(old(data.items), lines)
  {
    var c;
    c, used := AskForNewNumbers(lines);
    if c.Raised? {
      return Raised(c.exc), used;
    }
    status := IncrementKey(data, Adds, c.value);
    if status.Ok? {
      status := IncrementKey(data, Ricoh, c.value);
    }
  }

  method MoveMachines(data: DataDict, lines: seq<string>) returns (status: Outcome<()>, used: nat)
    modifies data
    ensures After(data.items, status, used) == MovedMachines(old(data.items), lines)
  {
    var v := data.Get(Moves);
    if v.Raised? {
      return Raised(v.exc), 0;
    }
    var c;
    c, used := AskForNewNumbers(lines);
    if c.Raised? {
      return Raised(c.exc), used;
    }
    var w := AddInt(v.value, c.value);
    if w.Raised? {
      return Raised(w.exc), used;
    }
    data.Set(Moves, w.value);
    status := Ok(());
  }

  method ApplyChanges(data: DataDict, added: bool, moved: bool, lines: seq<string>) returns (status: Outcome<()>, used: nat)
    modifies data
    ensures After(data.items, status, used) == Changes(old(data.items), added, moved, lines)
  {
    used := 0;
    if !added && !moved {
      return Ok(()), used;
    }
    status := Ok(());
    if added {
      status, used := AddMachines(data, lines);
    }
    if status.Ok? && moved {
      var n;
      status, n := MoveMachines(data, lines[used..]);
      used := used + n;
    }
  }

  /** `_check_for_updates`. */
  method CheckForUpdates(data: DataDict, lines: seq<string>) returns (status: Outcome<()>, used: nat)
    modifies data
    ensures After(data.items, status, used) == Updates(old(data.items), lines)
  {
    var added, n1 := AskForChanges(lines);
    if added.Raised? {
      return Raised(added.exc), n1;
    }
    var moved, n2 := AskForChanges(lines[n1..]);
    if moved.Raised? {
      return Raised(moved.exc), n1 + n2;
    }
    assert Answers(lines) == (Ok((added.value, moved.value)), n1 + n2);
    var n3;
    status, n3 := ApplyChanges(data, added.value, moved.value, lines[n1 + n2..]);
    used := n1 + n2 + n3;
  }

  /** `calculate_mps_totals`. */
  method CalculateMpsTotals(book: Sheet, data: DataDict, lines: seq<string>) returns (status: Outcome<()>, used: nat)
    modifies data
    ensures After(data.items, status, used) == MpsTotals(old(data.items), book, lines)
  {
    ReadMpsFromOutputFile(book, data);
    SetZeroStarts(data);
    status, used := CheckForUpdates(data, lines);
  }
}
