/**
 * Python dictionaries as the report compiler uses them: text keys, insertion
 * ordered, `d[k] = v` keeps an existing key in its place and appends a new
 * one at the end, and nothing is ever deleted. Such a dictionary is fully
 * described by the assignments made to it since it was created empty, so a
 * `Dict` is that sequence of assignments: its keys are the assigned keys in
 * order of first assignment, and the value of a key is its last assignment.
 * `DataDict` is a dictionary that a procedure receives by reference and fills
 * in place.
 */
module Dicts {
  import opened Builtins

  /** A sequence of assignments `d[k] = v`, in order. */
  type Writes = seq<(string, PyValue)>

  datatype Dict = Dict(writes: Writes)

  /** `{}`. */
  const Empty: Dict := Dict([])

  /** `d[k] = v`. */
  function Put(d: Dict, k: string, v: PyValue): Dict
  {
    Dict(d.writes + [(k, v)])
  }

  /** Every assignment of `ws`, in order. */
  function PutAll(d: Dict, ws: Writes): Dict
  {
    Dict(d.writes + ws)
  }

  function KeysOf<V>(ws: seq<(string, V)>): seq<string>
  {
    if ws == [] then [] else KeysOf(ws[..|ws| - 1]) + [ws[|ws| - 1].0]
  }

  /** The value of the last assignment to `k` in `ws`, if there is one. */
  function LastWrite(ws: Writes, k: string): Option<PyValue>
  {
    if ws == [] then None
    else if ws[|ws| - 1].0 == k then Some(ws[|ws| - 1].1)
    else LastWrite(ws[..|ws| - 1], k)
  }

  /** `s` with every repeated element after its first occurrence removed. */
  function Dedup(s: seq<string>): seq<string>
  {
    if s == [] then []
    else if s[|s| - 1] in Dedup(s[..|s| - 1]) then Dedup(s[..|s| - 1])
    else Dedup(s[..|s| - 1]) + [s[|s| - 1]]
  }

  /** `list(d)`: the keys in iteration order. */
  function Keys(d: Dict): seq<string>
  {
    Dedup(KeysOf(d.writes))
  }

  /** `d.get(k)`: `None` where `d[k]` raises KeyError. */
  function Lookup(d: Dict, k: string): Option<PyValue>
  {
    LastWrite(d.writes, k)
  }

  /** `d.items()`, in iteration order. */
  function Items(d: Dict): (ws: Writes)
    ensures |ws| == |Keys(d)|
    ensures forall i :: 0 <= i < |ws| ==> ws[i].0 == Keys(d)[i] && Lookup(d, ws[i].0) == Some(ws[i].1)
  {
    KeysLookup(d);
    seq(|Keys(d)|, i requires 0 <= i < |Keys(d)| => (Keys(d)[i], Lookup(d, Keys(d)[i]).value))
  }

  // ---------------------------------------------------------------- lemmas

  lemma {:induction false} DedupMembers(s: seq<string>)
    ensures forall x :: x in Dedup(s) <==> x in s
  {
    if s != [] {
      DedupMembers(s[..|s| - 1]);
      assert s == s[..|s| - 1] + [s[|s| - 1]];
    }
  }

  /** No key is listed twice. */
  lemma {:induction false} DedupDistinct(s: seq<string>)
    ensures forall i, j :: 0 <= i < j < |Dedup(s)| ==> Dedup(s)[i] != Dedup(s)[j]
  {
    if s != [] {
      DedupDistinct(s[..|s| - 1]);
    }
  }

  lemma DedupSnoc(s: seq<string>, x: string)
    ensures Dedup(s + [x]) == if x in s then Dedup(s) else Dedup(s) + [x]
  {
    assert (s + [x])[..|s|] == s;
    DedupMembers(s);
  }

  lemma {:induction false} DedupTwice(s: seq<string>)
    ensures Dedup(Dedup(s)) == Dedup(s)
  {
    if s != [] {
      var p := s[..|s| - 1];
      DedupTwice(p);
      DedupMembers(p);
      if s[|s| - 1] !in Dedup(p) {
        DedupSnoc(Dedup(p), s[|s| - 1]);
      }
    }
  }

  /** Removing repeats from a prefix first changes nothing. */
  lemma {:induction false} DedupAppendDedup(a: seq<string>, b: seq<string>)
    ensures Dedup(Dedup(a) + b) == Dedup(a + b)
    decreases |b|
  {
    if b == [] {
      assert a + b == a && Dedup(a) + b == Dedup(a);
      DedupTwice(a);
    } else {
      var p, x := b[..|b| - 1], b[|b| - 1];
      DedupAppendDedup(a, p);
      assert Dedup(a) + b == (Dedup(a) + p) + [x];
      assert a + b == (a + p) + [x];
      DedupSnoc(Dedup(a) + p, x);
      DedupSnoc(a + p, x);
      DedupMembers(a);
    }
  }

  lemma KeysOfLength<V>(ws: seq<(string, V)>)
    ensures |KeysOf(ws)| == |ws|
    ensures forall i :: 0 <= i < |ws| ==> KeysOf(ws)[i] == ws[i].0
  {
    if ws != [] {
      KeysOfLength(ws[..|ws| - 1]);
    }
  }

  lemma {:induction false} KeysOfAppend<V>(a: seq<(string, V)>, b: seq<(string, V)>)
    ensures KeysOf(a + b) == KeysOf(a) + KeysOf(b)
  {
    KeysOfLength(a);
    KeysOfLength(b);
    KeysOfLength(a + b);
  }

  /** A key has a value exactly when it has been assigned. */
  lemma {:induction false} LastWriteKeys(ws: Writes, k: string)
    ensures LastWrite(ws, k).Some? <==> k in KeysOf(ws)
  {
    if ws != [] {
      LastWriteKeys(ws[..|ws| - 1], k);
    }
  }

  /** The keys of a dictionary are exactly the keys it holds a value for. */
  lemma KeysLookup(d: Dict)
    ensures forall k :: k in Keys(d) <==> Lookup(d, k).Some?
  {
    DedupMembers(KeysOf(d.writes));
    forall k ensures k in Keys(d) <==> Lookup(d, k).Some? {
      LastWriteKeys(d.writes, k);
    }
  }

  /** `d[k] = v` puts a new key at the end and leaves an existing key in its place. */
  lemma PutKeys(d: Dict, k: string, v: PyValue)
    ensures Keys(Put(d, k, v)) == if k in Keys(d) then Keys(d) else Keys(d) + [k]
  {
    KeysOfAppend(d.writes, [(k, v)]);
    assert KeysOf([(k, v)]) == [k];
    DedupSnoc(KeysOf(d.writes), k);
    DedupMembers(KeysOf(d.writes));
  }

  /** The keys after a run of assignments: the old keys, then each new key at its first assignment. */
  lemma PutAllKeys(d: Dict, ws: Writes)
    ensures Keys(PutAll(d, ws)) == Dedup(Keys(d) + KeysOf(ws))
  {
    KeysOfAppend(d.writes, ws);
    DedupAppendDedup(KeysOf(d.writes), KeysOf(ws));
  }

  /** The keys a dictionary ends with when `d[k] = v` is followed by assignments to `rest`. */
  lemma PutThenKeys(d: Dict, k: string, v: PyValue, rest: seq<string>)
    ensures Dedup(Keys(Put(d, k, v)) + rest) == Dedup(Keys(d) + ([k] + rest))
  {
    PutAllKeys(d, [(k, v)]);
    assert KeysOf([(k, v)]) == [k];
    DedupAppendDedup(Keys(d) + [k], rest);
    assert Keys(d) + [k] + rest == Keys(d) + ([k] + rest);
  }

  lemma {:induction false} LastWriteAppend(a: Writes, b: Writes, k: string)
    ensures LastWrite(a + b, k) == if LastWrite(b, k).Some? then LastWrite(b, k) else LastWrite(a, k)
  {
    if b != [] {
      assert (a + b)[..|a + b| - 1] == a + b[..|b| - 1];
      LastWriteAppend(a, b[..|b| - 1], k);
    } else {
      assert a + b == a;
    }
  }

  /** After a run of assignments a key holds its last assigned value, or its old one if never assigned. */
  lemma PutAllLookup(d: Dict, ws: Writes, k: string)
    ensures Lookup(PutAll(d, ws), k) == if LastWrite(ws, k).Some? then LastWrite(ws, k) else Lookup(d, k)
  {
    LastWriteAppend(d.writes, ws, k);
  }

  /** `d[k] = v` gives `k` the value `v` and leaves every other key's value alone. */
  lemma LookupPut(d: Dict, k: string, v: PyValue, j: string)
    ensures Lookup(Put(d, k, v), j) == if j == k then Some(v) else Lookup(d, j)
  {
    assert Put(d, k, v).writes[..|d.writes|] == d.writes;
  }

  lemma ItemsKeys(d: Dict)
    ensures KeysOf(Items(d)) == Keys(d)
  {
    KeysOfLength(Items(d));
  }

  /** Assigning every item of `d` gives each of `d`'s keys its value in `d`, and no other key a value. */
  lemma LastWriteItems(d: Dict, k: string)
    ensures LastWrite(Items(d), k) == Lookup(d, k)
  {
    LastWritePrefix(d, k, |Keys(d)|);
    assert Items(d)[..|Keys(d)|] == Items(d);
    assert Keys(d)[..|Keys(d)|] == Keys(d);
    KeysLookup(d);
  }

  lemma {:induction false} LastWritePrefix(d: Dict, k: string, n: nat)
    requires n <= |Keys(d)|
    ensures LastWrite(Items(d)[..n], k) == if k in Keys(d)[..n] then Lookup(d, k) else None
  {
    var ws := Items(d);
    if n > 0 {
      LastWritePrefix(d, k, n - 1);
      assert ws[..n][..n - 1] == ws[..n - 1];
      assert Keys(d)[..n] == Keys(d)[..n - 1] + [Keys(d)[n - 1]];
    }
  }

  // ---------------------------------------------------------------- a dict filled in place

  /** A dictionary passed by reference to a procedure that fills it. */
  class DataDict {
    var items: Dict

    constructor ()
      ensures items == Empty
    {
      items := Empty;
    }

    /** `data[k] = v`. */
    method Set(k: string, v: PyValue)
      modifies this
      ensures items == Put(old(items), k, v)
    {
      items := Put(items, k, v);
    }

    /** `data[k]`, or the KeyError Python raises. */
    method Get(k: string) returns (r: Outcome<PyValue>)
      ensures r == match Lookup(items, k) case Some(v) => Ok(v) case None => Raised(KeyError)
    {
      match Lookup(items, k)
      case Some(v) => r := Ok(v);
      case None => r := Raised(KeyError);
    }
  }

  /** Where a procedure that fills a dict ended: the dict, how it ended, and how many console lines it read. */
  datatype After = After(data: Dict, status: Outcome<()>, used: nat)

  /** The same ending, for a procedure that had read `n` lines before it began. */
  function AfterReading(n: nat, a: After): After
  {
    After(a.data, a.status, n + a.used)
  }
}
