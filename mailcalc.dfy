/**
 * The mail domain: the postage spent over the month, from the meter balances
 * and the postage added, and the month's volume of each kind of mail, each
 * entered as a column of daily figures.
 */
module MailCalc {
  import opened Builtins
  import opened Dicts
  import opened Prompt

  // ---------------------------------------------------------------- the add loop

  /** `sum` of a list of whole numbers. */
  function Sum(s: seq<nat>): nat
  {
    if s == [] then 0 else Sum(s[..|s| - 1]) + s[|s| - 1]
  }

  /** The entries an add loop accepts among `lines`: those that are numeric, as numbers. */
  function Accepted(lines: seq<string>): (r: seq<nat>)
    ensures |r| <= |lines|
  {
    if lines == [] then []
    else (if IsNumeric(lines[0]) then [DigitsValue(lines[0])] else []) + Accepted(lines[1..])
  }

  /**
   * `_add_loop`: read entries, skipping those that are not numeric, until
   * one equal to 0 is accepted; the sum of those accepted and the lines read.
   */
  function Added(lines: seq<string>): (r: (Outcome<nat>, nat))
    ensures r.1 <= |lines|
    ensures r.0.Raised? ==> r.0.exc == EOFError && r.1 == |lines|
    decreases |lines|
  {
    if |lines| == 0 then (Raised(EOFError), 0)
    else if !IsNumeric(lines[0]) then var (o, n) := Added(lines[1..]); (o, n + 1)
    else if DigitsValue(lines[0]) == 0 then (Ok(0), 1)
    else
      var (o, n) := Added(lines[1..]);
      (if o.Ok? then Ok(DigitsValue(lines[0]) + o.value) else o, n + 1)
  }

  lemma {:induction false} SumCons(x: nat, s: seq<nat>)
    ensures Sum([x] + s) == x + Sum(s)
    decreases |s|
  {
    if s != [] {
      var t := [x] + s;
      assert t[..|t| - 1] == [x] + s[..|s| - 1];
      SumCons(x, s[..|s| - 1]);
    } else {
      assert [x] + s == [x];
    }
  }

  /** What the add loop returns is the sum of every entry it accepted; whatever was not numeric counted for nothing. */
  lemma {:induction false} AddedIsSumOfAccepted(lines: seq<string>)
    ensures var (o, n) := Added(lines);
      o.Ok? ==> o.value == Sum(Accepted(lines[..n]))
    decreases |lines|
  {
    var (o, n) := Added(lines);
    if |lines| > 0 && o.Ok? {
      var (o1, n1) := Added(lines[1..]);
      AddedIsSumOfAccepted(lines[1..]);
      var head: seq<nat> := if IsNumeric(lines[0]) then [DigitsValue(lines[0])] else [];
      assert Accepted(lines[..n]) == head + Accepted(lines[..n][1..]) by {
        assert lines[..n][0] == lines[0];
      }
      if IsNumeric(lines[0]) && DigitsValue(lines[0]) == 0 {
        assert lines[..n][1..] == [];
      } else {
        assert lines[..n][1..] == lines[1..][..n1];
        if IsNumeric(lines[0]) {
          SumCons(DigitsValue(lines[0]), Accepted(lines[1..][..n1]));
        } else {
          assert head + Accepted(lines[1..][..n1]) == Accepted(lines[1..][..n1]);
        }
      }
    }
  }

  /** The add loop stops at the first numeric entry equal to 0: the last entry it read is that one. */
  lemma {:induction false} AddedStopsAtFirstZero(lines: seq<string>)
    ensures var (o, n) := Added(lines);
      && (o.Ok? ==> 0 < n && IsNumeric(lines[n - 1]) && DigitsValue(lines[n - 1]) == 0)
      && (forall j :: 0 <= j < n - 1 && IsNumeric(lines[j]) ==> DigitsValue(lines[j]) != 0)
    decreases |lines|
  {
    var (o, n) := Added(lines);
    if |lines| > 0 && !(IsNumeric(lines[0]) && DigitsValue(lines[0]) == 0) {
      var (o1, n1) := Added(lines[1..]);
      AddedStopsAtFirstZero(lines[1..]);
      assert n == n1 + 1;
      if o.Ok? {
        assert lines[n - 1] == lines[1..][n1 - 1];
      }
      forall j | 0 <= j < n - 1 && IsNumeric(lines[j]) ensures DigitsValue(lines[j]) != 0 {
        if j > 0 {
          assert lines[j] == lines[1..][j - 1];
        }
      }
    }
  }

  /** A step of the add loop that skips an entry which is not numeric. */
  lemma AddedSkips(lines: seq<string>)
    requires |lines| > 0 && !IsNumeric(lines[0])
    ensures Added(lines) == (Added(lines[1..]).0, Added(lines[1..]).1 + 1)
  {
  }

  /** A step of the add loop that accepts 0 and stops. */
  lemma AddedStops(lines: seq<string>)
    requires |lines| > 0 && IsNumeric(lines[0]) && DigitsValue(lines[0]) == 0
    ensures Added(lines) == (Ok(0), 1)
  {
  }

  /** A step of the add loop that accepts an entry other than 0 and goes on. */
  lemma AddedAdds(lines: seq<string>)
    requires |lines| > 0 && IsNumeric(lines[0]) && DigitsValue(lines[0]) != 0
    ensures Added(lines).1 == Added(lines[1..]).1 + 1
    ensures Added(lines).0 ==
      if Added(lines[1..]).0.Ok? then Ok(DigitsValue(lines[0]) + Added(lines[1..]).0.value) else Added(lines[1..]).0
  {
  }

  /** `3, 4, 0` gives 7. */
  lemma AddedSumExample(a: seq<string>)
    requires a == ["3", "4", "0"]
    ensures Added(a) == (Ok(7), 3)
  {
    assert IsNumeric(a[0]) && DigitsValue(a[0]) == 3;
    assert IsNumeric(a[1]) && DigitsValue(a[1]) == 4;
    assert IsNumeric(a[2]) && DigitsValue(a[2]) == 0;
    var a1 := a[1..];
    var a2 := a1[1..];
    assert a1[0] == a[1] && a2[0] == a[2] && |a2| == 1;
    AddedStops(a2);
    AddedAdds(a1);
    AddedAdds(a);
  }

  /** A first entry of 0 gives 0. */
  lemma AddedZeroExample(b: seq<string>)
    requires b == ["0"]
    ensures Added(b) == (Ok(0), 1)
  {
    assert IsNumeric(b[0]) && DigitsValue(b[0]) == 0;
    AddedStops(b);
  }

  /** A leading `-`, a decimal point and an empty entry are each skipped. */
  lemma AddedRejectsExample(c: seq<string>)
    requires c == ["-2", "1.5", "", "5", "0"]
    ensures Added(c) == (Ok(5), 5)
  {
    assert !IsNumeric(c[0]) by { assert !IsDigit(c[0][0]); }
    assert !IsNumeric(c[1]) by { assert !IsDigit(c[1][1]); }
    assert !IsNumeric(c[2]);
    assert IsNumeric(c[3]) && DigitsValue(c[3]) == 5;
    assert IsNumeric(c[4]) && DigitsValue(c[4]) == 0;
    var c1 := c[1..];
    var c2 := c1[1..];
    var c3 := c2[1..];
    var c4 := c3[1..];
    assert c1[0] == c[1] && c2[0] == c[2] && c3[0] == c[3] && c4[0] == c[4] && |c4| == 1;
    AddedStops(c4);
    AddedAdds(c3);
    AddedSkips(c2);
    AddedSkips(c1);
    AddedSkips(c);
  }

  /** What the add loop knows after reading `used` lines and accepting the entries in `total`. */
  ghost predicate AddLoopInvariant(lines: seq<string>, used: nat, total: seq<nat>)
    requires used <= |lines|
  {
    if total == [] || total[|total| - 1] != 0 then
      var rest := Added(lines[used..]);
      Added(lines) == (if rest.0.Ok? then Ok(Sum(total) + rest.0.value) else rest.0, rest.1 + used)
    else Added(lines) == (Ok(Sum(total)), used)
  }

  /** One pass of the add loop keeps its invariant. */
  lemma AddLoopStep(lines: seq<string>, used: nat, total: seq<nat>, used': nat, total': seq<nat>)
    requires used < |lines| && used' == used + 1
    requires total == [] || total[|total| - 1] != 0
    requires AddLoopInvariant(lines, used, total)
    requires total' == if IsNumeric(lines[used]) then total + [DigitsValue(lines[used])] else total
    ensures AddLoopInvariant(lines, used', total')
  {
    var rest := lines[used..];
    assert rest[1..] == lines[used'..];
    if !IsNumeric(lines[used]) {
      AddedSkips(rest);
    } else {
      assert total'[..|total'| - 1] == total;
      if DigitsValue(lines[used]) != 0 {
        AddedAdds(rest);
      } else {
        AddedStops(rest);
      }
    }
  }

  /** `_add_loop`, collecting the accepted entries in a list and summing them at the end. */
  method AddLoop(lines: seq<string>) returns (r: Outcome<nat>, used: nat)
    ensures (r, used) == Added(lines)
  {
    var total: seq<nat> := [];
    used := 0;
    while total == [] || total[|total| - 1] != 0
      invariant used <= |lines|
      invariant AddLoopInvariant(lines, used, total)
      decreases |lines| - used, if total == [] || total[|total| - 1] != 0 then 1 else 0
    {
      if used == |lines| {
        return Raised(EOFError), used;
      }
      var entry := lines[used];
      ghost var used0, total0 := used, total;
      used := used + 1;
      if IsNumeric(entry) {
        total := total + [DigitsValue(entry)];
      }
      AddLoopStep(lines, used0, total0, used, total);
    }
    r := Ok(Sum(total));
  }

  // ---------------------------------------------------------------- postage

  const PostageSpendKey := "Postage Spend"

  /** `meter_start + postage_added - meter_end`. */
  function Spend(start: real, added: nat, end: real): real
  {
    start + added as real - end
  }

  /** `_will_it_float`. */
  predicate WillItFloat(entry: string)
  {
    ParseFloat(entry).Some?
  }

  /**
   * One meter balance. The `while not float_verification` loop around it
   * never goes round twice: an entry `_will_it_float` rejects still reaches
   * `float()`, which raises ValueError.
   */
  function Balance(lines: seq<string>): (r: (Outcome<real>, nat))
    ensures r.1 <= 1
    ensures |lines| > 0 && !WillItFloat(lines[0]) ==> r == (Raised(ValueError), 1)
  {
    ReadOnce(lines, ParseFloat, ValueError)
  }

  method ReadBalance(lines: seq<string>) returns (r: Outcome<real>, used: nat)
    ensures (r, used) == Balance(lines)
  {
    var verified := false;
    used := 0;
    r := Raised(EOFError);
    while !verified
      invariant !verified ==> used == 0
      invariant verified ==> (r, used) == Balance(lines)
      decreases if verified then 0 else 1
    {
      if used == |lines| {
        return Raised(EOFError), used;
      }
      var entry := lines[used];
      used := used + 1;
      verified := WillItFloat(entry);
      var value := ParseFloat(entry);
      if value.None? {
        return Raised(ValueError), used;
      }
      r := Ok(value.value);
    }
  }

  /** The rest of `_calculate_postage` once the starting balance is read: postage added, ending balance, spend. */
  function PostageFrom(d: Dict, start: real, lines: seq<string>): (r: After)
    ensures r.used <= |lines|
  {
    var (added, n2) := Added(lines);
    if added.Raised? then After(d, Raised(added.exc), n2)
    else
      var (end, n3) := Balance(lines[n2..]);
      if end.Raised? then After(d, Raised(end.exc), n2 + n3)
      else After(Put(d, PostageSpendKey, PyFloat(Spend(start, added.value, end.value))), Ok(()), n2 + n3)
  }

  /** `_calculate_postage` on `d`: starting balance, postage added, ending balance; spend = start + added - end. */
  function Postage(d: Dict, lines: seq<string>): (r: After)
    ensures r.used <= |lines|
  {
    var (start, n1) := Balance(lines);
    if start.Raised? then After(d, Raised(start.exc), n1)
    else var r := PostageFrom(d, start.value, lines[n1..]); After(r.data, r.status, n1 + r.used)
  }

  /** The postage spend is the starting balance plus every amount added, less the ending balance. */
  lemma PostageSpend(d: Dict, first: string, adds: seq<string>, last: string, rest: seq<string>,
                     start: real, end: real, added: nat)
    requires ParseFloat(first) == Some(start) && ParseFloat(last) == Some(end)
    requires Added(adds) == (Ok(added), |adds|)
    ensures Postage(d, [first] + (adds + ([last] + rest)))
      == After(Put(d, PostageSpendKey, PyFloat(Spend(start, added, end))), Ok(()), |adds| + 2)
  {
    var tail := adds + ([last] + rest);
    var lines := [first] + tail;
    assert lines[0] == first && lines[1..] == tail;
    PostageFromSpend(d, start, adds, last, rest, end, added);
  }

  lemma PostageFromSpend(d: Dict, start: real, adds: seq<string>, last: string, rest: seq<string>, end: real, added: nat)
    requires ParseFloat(last) == Some(end)
    requires Added(adds) == (Ok(added), |adds|)
    ensures PostageFrom(d, start, adds + ([last] + rest))
      == After(Put(d, PostageSpendKey, PyFloat(Spend(start, added, end))), Ok(()), |adds| + 1)
  {
    var tail := adds + ([last] + rest);
    assert tail[..|adds|] == adds;
    AddedPrefix(tail, |adds|);
    assert tail[|adds|..] == [last] + rest;
    assert Balance([last] + rest) == (Ok(end), 1);
  }

  /** The add loop reads only up to its terminating 0: what follows does not change its result. */
  lemma {:induction false} AddedPrefix(lines: seq<string>, n: nat)
    requires n <= |lines| && Added(lines[..n]).0.Ok? && Added(lines[..n]).1 == n
    ensures Added(lines) == Added(lines[..n])
    decreases n
  {
    var p := lines[..n];
    if !IsNumeric(p[0]) || DigitsValue(p[0]) != 0 {
      assert p[1..] == lines[1..][..n - 1];
      AddedPrefix(lines[1..], n - 1);
    }
  }

  /** The postage step writes the postage spend, as a float, and nothing else; if it fails it writes nothing. */
  lemma PostageWrites(d: Dict, lines: seq<string>)
    ensures var r := Postage(d, lines);
      && (r.status.Raised? ==> r.data == d)
      && (r.status.Ok? ==> exists spend: real :: r.data == Put(d, PostageSpendKey, PyFloat(spend)))
  {
    var r := Postage(d, lines);
    if r.status.Ok? {
      var spend := Lookup(r.data, PostageSpendKey).value.f;
      assert r.data == Put(d, PostageSpendKey, PyFloat(spend));
    }
  }

  /** A starting balance that is not a number ends the procedure at once, with ValueError. */
  lemma BalanceNeverRetries(d: Dict, lines: seq<string>)
    requires |lines| > 0 && !WillItFloat(lines[0])
    ensures Postage(d, lines) == After(d, Raised(ValueError), 1)
  {
  }

  method CalculatePostageFrom(data: DataDict, start: real, lines: seq<string>) returns (status: Outcome<()>, used: nat)
    modifies data
    ensures After(data.items, status, used) == PostageFrom(old(data.items), start, lines)
  {
    var added, n2 := AddLoop(lines);
    if added.Raised? {
      return Raised(added.exc), n2;
    }
    var end, n3 := ReadBalance(lines[n2..]);
    used := n2 + n3;
    if end.Raised? {
      return Raised(end.exc), used;
    }
    data.Set(PostageSpendKey, PyFloat(Spend(start, added.value, end.value)));
    status := Ok(());
  }

  method CalculatePostage(data: DataDict, lines: seq<string>) returns (status: Outcome<()>, used: nat)
    modifies data
    ensures After(data.items, status, used) == Postage(old(data.items), lines)
  {
    var start, n1 := ReadBalance(lines);
    if start.Raised? {
      return Raised(start.exc), n1;
    }
    var n;
    status, n := CalculatePostageFrom(data, start.value, lines[n1..]);
    used := n1 + n;
  }

  // ---------------------------------------------------------------- volumes

  const MailKeys: seq<string> := ["Outbound Mail", "Inbound Mail", "Returned Mail",
                                  "Outbound Accountable Mail", "Inbound Accountable Mail"]

  /** One mail type: its key is set to 0, then to the sum its add loop returns. */
  function AddOne(d: Dict, k: string, lines: seq<string>): (r: After)
    ensures r.used <= |lines|
  {
    var zeroed := Put(d, k, PyInt(0));
    var (o, n) := Added(lines);
    match o
    case Raised(e) => After(zeroed, Raised(e), n)
    case Ok(v) => After(Put(zeroed, k, PyInt(v)), Ok(()), n)
  }

  /** One add loop per key, in order; a loop that ends in EOFError leaves its key at 0. */
  function AddEach(d: Dict, keys: seq<string>, lines: seq<string>): (r: After)
    ensures r.used <= |lines|
    decreases |keys|
  {
    if keys == [] then After(d, Ok(()), 0)
    else
      var one := AddOne(d, keys[0], lines);
      if one.status.Raised? then one
      else
        var rest := AddEach(one.data, keys[1..], lines[one.used..]);
        After(rest.data, rest.status, one.used + rest.used)
  }

  /** `_get_mail_volumes_input` on `d`. */
  function MailVolumes(d: Dict, lines: seq<string>): After
  {
    AddEach(d, MailKeys, lines)
  }

  /** One mail type changes only its own key and keeps the key order. */
  lemma AddOneWrites(d: Dict, k: string, lines: seq<string>, j: string)
    ensures var r := AddOne(d, k, lines);
      && (j != k ==> Lookup(r.data, j) == Lookup(d, j))
      && Keys(r.data) == Keys(Put(d, k, PyInt(0)))
  {
    var zeroed := Put(d, k, PyInt(0));
    var (o, n) := Added(lines);
    LookupPut(d, k, PyInt(0), j);
    LookupPut(d, k, PyInt(0), k);
    if o.Ok? {
      LookupPut(zeroed, k, PyInt(o.value), j);
      PutKeys(zeroed, k, PyInt(o.value));
      KeysLookup(zeroed);
    }
  }

  /** The key of one mail type holds the sum its add loop returns, or 0 when the loop ran out of input. */
  lemma AddOneSum(d: Dict, k: string, lines: seq<string>)
    ensures var r := AddOne(d, k, lines);
      && (r.status.Ok? <==> Added(lines).0.Ok?)
      && (r.status.Ok? ==> Lookup(r.data, k) == Some(PyInt(Added(lines).0.value)))
      && (r.status.Raised? ==> Lookup(r.data, k) == Some(PyInt(0)))
  {
    var zeroed := Put(d, k, PyInt(0));
    var (o, n) := Added(lines);
    LookupPut(d, k, PyInt(0), k);
    if o.Ok? {
      LookupPut(zeroed, k, PyInt(o.value), k);
    }
  }

  /** The volume loop changes no key but its own, and gives each of its keys a whole number when it completes. */
  lemma {:induction false} AddEachWrites(d: Dict, keys: seq<string>, lines: seq<string>, k: string)
    ensures var r := AddEach(d, keys, lines);
      && (k !in keys ==> Lookup(r.data, k) == Lookup(d, k))
      && (r.status.Ok? && k in keys ==> Lookup(r.data, k).Some? && Lookup(r.data, k).value.PyInt? && Lookup(r.data, k).value.i >= 0)
    decreases |keys|
  {
    if keys != [] {
      var one := AddOne(d, keys[0], lines);
      AddOneWrites(d, keys[0], lines, k);
      AddOneSum(d, keys[0], lines);
      if one.status.Ok? {
        AddEachWrites(one.data, keys[1..], lines[one.used..], k);
      }
    }
  }

  /**
   * The sums of `count` add loops run one after the other, each reading on
   * from where the one before stopped, with the lines they read together;
   * `None` when the input runs out first.
   */
  function Sums(count: nat, lines: seq<string>): (r: Option<(seq<nat>, nat)>)
    ensures r.Some? ==> |r.value.0| == count && r.value.1 <= |lines|
    decreases count
  {
    if count == 0 then Some(([], 0))
    else
      var (o, n) := Added(lines);
      match o
      case Raised(_) => None
      case Ok(v) =>
        match Sums(count - 1, lines[n..])
        case None => None
        case Some((rest, m)) => Some(([v] + rest, n + m))
  }

  /**
   * Each key gets its own add loop: the volume loop completes exactly when
   * all its loops do, reading the lines they read, and a key that is not
   * listed again later holds the sum of its own loop.
   */
  lemma {:induction false} AddEachSums(d: Dict, keys: seq<string>, lines: seq<string>, i: nat)
    ensures var r := AddEach(d, keys, lines);
      && (r.status.Ok? <==> Sums(|keys|, lines).Some?)
      && (r.status.Ok? ==> r.used == Sums(|keys|, lines).value.1)
      && (r.status.Ok? && i < |keys| && keys[i] !in keys[i + 1..] ==>
            Lookup(r.data, keys[i]) == Some(PyInt(Sums(|keys|, lines).value.0[i])))
    decreases |keys|
  {
    if keys != [] {
      var one := AddOne(d, keys[0], lines);
      AddOneSum(d, keys[0], lines);
      if one.status.Ok? {
        var tail := lines[one.used..];
        AddEachSums(one.data, keys[1..], tail, if i == 0 then 0 else i - 1);
        if i == 0 {
          AddEachWrites(one.data, keys[1..], tail, keys[0]);
        } else if i < |keys| {
          assert keys[1..][i - 1] == keys[i] && keys[1..][i..] == keys[i + 1..];
        }
      }
    }
  }

  lemma {:induction false} AddEachKeys(d: Dict, keys: seq<string>, lines: seq<string>)
    ensures var r := AddEach(d, keys, lines);
      r.status.Ok? ==> Keys(r.data) == Dedup(Keys(d) + keys)
    decreases |keys|
  {
    if keys == [] {
      assert Keys(d) + keys == Keys(d);
      DedupTwice(KeysOf(d.writes));
    } else {
      var one := AddOne(d, keys[0], lines);
      if one.status.Ok? {
        AddEachKeys(one.data, keys[1..], lines[one.used..]);
        AddOneWrites(d, keys[0], lines, keys[0]);
        PutThenKeys(d, keys[0], PyInt(0), keys[1..]);
        assert [keys[0]] + keys[1..] == keys;
      }
    }
  }

  /** `data[mail_type] = 0`, then `data[mail_type] = _add_loop()`. */
  method AddOneVolume(data: DataDict, k: string, lines: seq<string>) returns (status: Outcome<()>, used: nat)
    modifies data
    ensures After(data.items, status, used) == AddOne(old(data.items), k, lines)
  {
    data.Set(k, PyInt(0));
    var v;
    v, used := AddLoop(lines);
    if v.Raised? {
      return Raised(v.exc), used;
    }
    data.Set(k, PyInt(v.value));
    status := Ok(());
  }

  /** The loop of `_get_mail_volumes_input`. */
  method AddVolumes(data: DataDict, keys: seq<string>, lines: seq<string>) returns (status: Outcome<()>, used: nat)
    modifies data
    ensures After(data.items, status, used) == AddEach(old(data.items), keys, lines)
  {
    used := 0;
    var i := 0;
    while i < |keys|
      invariant 0 <= i <= |keys| && used <= |lines|
      invariant var rest := AddEach(data.items, keys[i..], lines[used..]);
        AddEach(old(data.items), keys, lines) == After(rest.data, rest.status, used + rest.used)
    {
      ghost var d := data.items;
      var s, n := AddOneVolume(data, keys[i], lines[used..]);
      if s.Raised? {
        return s, used + n;
      }
      assert lines[used..][n..] == lines[used + n..];
      assert keys[i..][1..] == keys[i + 1..];
      ghost var rest := AddEach(data.items, keys[i + 1..], lines[used + n..]);
      assert AddEach(d, keys[i..], lines[used..]) == After(rest.data, rest.status, n + rest.used);
      used := used + n;
      i := i + 1;
    }
    status := Ok(());
  }

  method GetMailVolumesInput(data: DataDict, lines: seq<string>) returns (status: Outcome<()>, used: nat)
    modifies data
    ensures After(data.items, status, used) == MailVolumes(old(data.items), lines)
  {
    status, used := AddVolumes(data, MailKeys, lines);
  }

  // ---------------------------------------------------------------- the mail totals

  /** `calculate_mail_totals` on `d`. */
  function MailTotals(d: Dict, lines: seq<string>): After
  {
    var p := Postage(d, lines);
    if p.status.Raised? then p
    else var v := MailVolumes(p.data, lines[p.used..]); After(v.data, v.status, p.used + v.used)
  }

  /** A completed run holds the postage spend and the five volumes, each a whole number, and nothing else new. */
  lemma MailTotalsRecorded(d: Dict, lines: seq<string>, k: string)
    ensures var r := MailTotals(d, lines);
      && (r.status.Ok? ==> Lookup(r.data, PostageSpendKey).Some? && Lookup(r.data, PostageSpendKey).value.PyFloat?)
      && (r.status.Ok? && k in MailKeys ==> Lookup(r.data, k).Some? && Lookup(r.data, k).value.PyInt? && Lookup(r.data, k).value.i >= 0)
      && (r.status.Ok? ==> Keys(r.data) == Dedup(Keys(d) + ([PostageSpendKey] + MailKeys)))
      && (k !in MailKeys && k != PostageSpendKey ==> Lookup(r.data, k) == Lookup(d, k))
  {
    var p := Postage(d, lines);
    if p.status.Ok? {
      PostageWrites(d, lines);
      var spend: real :| p.data == Put(d, PostageSpendKey, PyFloat(spend));
      LookupPut(d, PostageSpendKey, PyFloat(spend), k);
      AddEachWrites(p.data, MailKeys, lines[p.used..], k);
      AddEachWrites(p.data, MailKeys, lines[p.used..], PostageSpendKey);
      LookupPut(d, PostageSpendKey, PyFloat(spend), PostageSpendKey);
      AddEachKeys(p.data, MailKeys, lines[p.used..]);
      PutThenKeys(d, PostageSpendKey, PyFloat(spend), MailKeys);
    }
  }

  method CalculateMailTotals(data: DataDict, lines: seq<string>) returns (status: Outcome<()>, used: nat)
    modifies data
    ensures After(data.items, status, used) == MailTotals(old(data.items), lines)
  {
    var n1;
    status, n1 := CalculatePostage(data, lines);
    if status.Raised? {
      return status, n1;
    }
    var n2;
    status, n2 := GetMailVolumesInput(data, lines[n1..]);
    used := n1 + n2;
  }
}
