/**
 * Console input as a script. Every `input()` call takes the next line of
 * `lines`; a call made once the script has run out raises EOFError, which none
 * of the compiler's prompts catch. Members that read the console return how
 * many lines they consumed, so that the next prompt starts at `lines[used..]`.
 */
module Prompt {
  import opened Builtins

  /**
   * A `while True` prompt that re-asks until `accept` takes a line: the value
   * of the accepted line and the number of lines read up to and including it.
   */
  function Retry<T>(lines: seq<string>, accept: string -> Option<T>): (r: (Outcome<T>, nat))
    ensures r.1 <= |lines|
    ensures r.0.Raised? ==> r.0.exc == EOFError && r.1 == |lines|
    ensures r.0.Ok? ==> 0 < r.1 && accept(lines[r.1 - 1]) == Some(r.0.value)
    decreases |lines|
  {
    if |lines| == 0 then (Raised(EOFError), 0)
    else match accept(lines[0])
      case Some(v) => (Ok(v), 1)
      case None => var (o, n) := Retry(lines[1..], accept); (o, n + 1)
  }

  /** Every line read before the accepted one (before the end, on EOFError) was rejected. */
  lemma {:induction false} RetrySkipsOnlyRejected<T>(lines: seq<string>, accept: string -> Option<T>, j: nat)
    requires var (o, n) := Retry(lines, accept); j < (if o.Ok? then n - 1 else n)
    ensures accept(lines[j]).None?
    decreases |lines|
  {
    if j > 0 {
      assert accept(lines[0]).None?;
      RetrySkipsOnlyRejected(lines[1..], accept, j - 1);
    }
  }

  /** The prompt loop itself: read, try to accept, read again. */
  method AskUntilAccepted<T>(lines: seq<string>, accept: string -> Option<T>) returns (r: Outcome<T>, used: nat)
    ensures (r, used) == Retry(lines, accept)
  {
    used := 0;
    while true
      invariant used <= |lines|
      invariant var (o, n) := Retry(lines[used..], accept); Retry(lines, accept) == (o, n + used)
      decreases |lines| - used
    {
      if used == |lines| {
        return Raised(EOFError), used;
      }
      var line := lines[used];
      used := used + 1;
      match accept(line)
      case Some(v) =>
        return Ok(v), used;
      case None =>
        assert lines[used - 1..][1..] == lines[used..];
    }
  }

  /** One `input()` whose text must convert, with no retry: EOFError, the converted value, or `failure`. */
  function ReadOnce<T>(lines: seq<string>, convert: string -> Option<T>, failure: Exc): (r: (Outcome<T>, nat))
    ensures r.1 == if |lines| == 0 then 0 else 1
  {
    if |lines| == 0 then (Raised(EOFError), 0)
    else match convert(lines[0])
      case Some(v) => (Ok(v), 1)
      case None => (Raised(failure), 1)
  }
}
