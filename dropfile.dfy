/**
 * Cleaning a file path dropped onto the console: the quotes, ampersand and
 * spaces a terminal puts around it are cut from both ends, escaped spaces
 * become plain spaces, and doubled single quotes become single ones.
 */
module DropFile {
  import opened Builtins

  /** The characters `strip` removes from both ends: space, `&`, `'` and `"`. */
  const EdgeChars: set<char> := {' ', '&', '\'', '"'}

  /** A backslash followed by a space, as a shell escapes a space. */
  const EscapedSpace: string := ['\\', ' ']

  /** `_clean_characters`. */
  function CleanCharacters(location: string): (r: string)
    ensures |r| <= |location|
  {
    var stripped := Strip(location, EdgeChars);
    var unescaped := Replace(stripped, EscapedSpace, " ");
    Replace(unescaped, "''", "'")
  }

  /**
   * The strip step takes a slice of the input, cutting only edge characters,
   * and leaves none at either end.
   */
  lemma StripStep(location: string)
    ensures var s := Strip(location, EdgeChars);
      && (s == [] || (s[0] !in EdgeChars && s[|s| - 1] !in EdgeChars))
      && exists lo, hi :: 0 <= lo <= hi <= |location| && s == location[lo..hi]
  {
    StripSlice(location, EdgeChars);
  }

  /** A path with no edge character at either end, no escaped space and no doubled quote is returned as it is. */
  lemma CleanUnchanged(location: string)
    requires location == [] || (location[0] !in EdgeChars && location[|location| - 1] !in EdgeChars)
    requires !Contains(location, EscapedSpace) && !Contains(location, "''")
    ensures CleanCharacters(location) == location
  {
    if location != [] {
      StripBetween(location, EdgeChars, 0, |location|);
      assert location[0..|location|] == location;
    }
  }

  /** The strip step of the example below: the quotes and the trailing space go. */
  lemma StripExample(dropped: string, inner: string)
    requires dropped == ['\'', 'M', 'y', '\\', ' ', 'D', 'o', 'c', 's', '\'', ' ']
    requires inner == ['M', 'y', '\\', ' ', 'D', 'o', 'c', 's']
    ensures Strip(dropped, EdgeChars) == inner
  {
    forall k | 0 <= k < 1 ensures dropped[k] in EdgeChars { }
    forall k | 9 <= k < |dropped| ensures dropped[k] in EdgeChars { }
    StripBetween(dropped, EdgeChars, 1, 9);
    assert dropped[1..9] == inner;
  }

  /** The unescaping step of the example below. */
  lemma UnescapeExample(inner: string, tail: string)
    requires inner == ['M', 'y', '\\', ' '] + tail
    requires tail == ['D', 'o', 'c', 's']
    ensures Replace(inner, EscapedSpace, " ") == "My Docs"
  {
    assert !Contains(tail, EscapedSpace) by {
      if Contains(tail, EscapedSpace) {
        ContainsFirst(tail, EscapedSpace);
        assert false;
      }
    }
    var i1 := inner[1..];
    var i2 := i1[1..];
    assert i2 == EscapedSpace + tail;
    assert i2[..2] == EscapedSpace && i2[2..] == tail;
    assert Replace(i2, EscapedSpace, " ") == " " + tail;
    assert i1[..2] != EscapedSpace;
    assert inner[..2] != EscapedSpace;
  }

  /** The last step of the example below: there is no doubled quote to undo. */
  lemma NoDoubledQuoteExample(plain: string)
    requires plain == "My Docs"
    ensures Replace(plain, "''", "'") == plain
  {
    assert !Contains(plain, "''") by {
      if Contains(plain, "''") {
        ContainsFirst(plain, "''");
        assert false;
      }
    }
  }

  /** A dragged path with an escaped space, quoted and followed by a space, comes out as the plain path. */
  lemma CleanExample(dropped: string, plain: string)
    requires dropped == ['\'', 'M', 'y', '\\', ' ', 'D', 'o', 'c', 's', '\'', ' ']
    requires plain == "My Docs"
    ensures CleanCharacters(dropped) == plain
  {
    var tail := ['D', 'o', 'c', 's'];
    var inner := ['M', 'y', '\\', ' '] + tail;
    StripExample(dropped, inner);
    UnescapeExample(inner, tail);
    NoDoubledQuoteExample(plain);
  }
}
