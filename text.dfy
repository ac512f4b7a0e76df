/** The handful of Python `str` operations the scripts rely on, with Python's semantics. */
module Text {
  import opened Wrappers

  /** `s.startswith(prefix)` */
  predicate StartsWith(s: string, prefix: string) {
    |prefix| <= |s| && s[..|prefix|] == prefix
  }

  /** `sub in s`: `sub` occurs in `s` at some position. */
  predicate Contains(s: string, sub: string)
    decreases |s|
  {
    StartsWith(s, sub) || (s != [] && Contains(s[1..], sub))
  }

  /** An occurrence at any position makes `sub in s` true. */
  lemma {:induction false} ContainsAt(s: string, sub: string, i: nat)
    requires i + |sub| <= |s| && s[i..i + |sub|] == sub
    ensures Contains(s, sub)
    decreases i
  {
    if i > 0 {
      assert s[1..][i - 1..i - 1 + |sub|] == s[i..i + |sub|];
      ContainsAt(s[1..], sub, i - 1);
    }
  }

  /** `s.replace(pat, '')` for a non-empty `pat`: one left-to-right pass that
      deletes every non-overlapping occurrence of `pat`. */
  function RemoveAll(s: string, pat: string): (r: string)
    requires pat != []
    ensures |r| <= |s|
    ensures !Contains(s, pat) ==> r == s
    ensures StartsWith(s, pat) ==> |r| <= |s| - |pat|
    decreases |s|
  {
    if s == [] then []
    else if StartsWith(s, pat) then RemoveAll(s[|pat|..], pat)
    else [s[0]] + RemoveAll(s[1..], pat)
  }

  /** Removing a marker that ends a name whose characters never begin the
      marker gives back exactly the part before the marker. */
  lemma {:induction false} RemoveTrailingMarker(stem: string, pat: string)
    requires pat != []
    requires forall i :: 0 <= i < |stem| ==> stem[i] != pat[0]
    ensures RemoveAll(stem + pat, pat) == stem
  {
    if stem == [] {
      assert stem + pat == pat;
      assert StartsWith(pat, pat);
      assert pat[|pat|..] == [];
    } else {
      var s := stem + pat;
      assert s[0] == stem[0] && !StartsWith(s, pat);
      assert s[1..] == stem[1..] + pat;
      RemoveTrailingMarker(stem[1..], pat);
      assert [stem[0]] + stem[1..] == stem;
    }
  }

  /** Whitespace as Python's argument-less `str.strip()` understands it
      (the characters for which `str.isspace()` holds). */
  predicate IsSpace(c: char) {
    c in {' ', '\t', '\n', '\r', '\U{0B}', '\U{0C}', '\U{1C}', '\U{1D}', '\U{1E}', '\U{1F}',
          '\U{85}', '\U{A0}', '\U{1680}', '\U{2000}', '\U{2001}', '\U{2002}', '\U{2003}',
          '\U{2004}', '\U{2005}', '\U{2006}', '\U{2007}', '\U{2008}', '\U{2009}', '\U{200A}',
          '\U{2028}', '\U{2029}', '\U{202F}', '\U{205F}', '\U{3000}'}
  }

  /** Drops every leading character that satisfies `drop`. */
  function TrimLeft(s: string, drop: char -> bool): (r: string)
    ensures |r| <= |s| && r == s[|s| - |r|..]
    ensures r != [] ==> !drop(r[0])
    ensures forall k :: 0 <= k < |s| - |r| ==> drop(s[k])
    decreases |s|
  {
    if s != [] && drop(s[0]) then TrimLeft(s[1..], drop) else s
  }

  /** Drops every trailing character that satisfies `drop`. */
  function TrimRight(s: string, drop: char -> bool): (r: string)
    ensures |r| <= |s| && r == s[..|r|]
    ensures r != [] ==> !drop(r[|r| - 1])
    ensures forall k :: |r| <= k < |s| ==> drop(s[k])
    decreases |s|
  {
    if s != [] && drop(s[|s| - 1]) then TrimRight(s[..|s| - 1], drop) else s
  }

  /** Where `strip` starts cutting: the number of leading characters to drop. */
  function StripStart(s: string, drop: char -> bool): (i: nat)
    ensures i <= |s| && (i < |s| ==> !drop(s[i]))
    ensures forall k :: 0 <= k < i ==> drop(s[k])
  {
    |s| - |TrimLeft(s, drop)|
  }

  /** Python's `strip`: both ends trimmed, so the result neither starts nor
      ends with a character to drop. */
  function StripWhere(s: string, drop: char -> bool): (r: string)
    ensures |r| <= |s|
    ensures r != [] ==> !drop(r[0]) && !drop(r[|r| - 1])
  {
    var left := TrimLeft(s, drop);
    var r := TrimRight(left, drop);
    assert r != [] ==> r[0] == left[0];
    r
  }

  /** A prefix of a suffix is a slice. */
  lemma SliceOfSuffix<T>(s: seq<T>, i: nat, n: nat)
    requires i + n <= |s|
    ensures s[i..][..n] == s[i..i + n]
  {
  }

  /** What `strip` keeps is the slice of `s` that starts after the dropped
      leading characters, and every character after it is dropped too. */
  lemma StripWhereSlice(s: string, drop: char -> bool)
    ensures var i, r := StripStart(s, drop), StripWhere(s, drop);
            i + |r| <= |s| && r == s[i..i + |r|]
            && (forall k :: 0 <= k < i ==> drop(s[k]))
            && (forall k :: i + |r| <= k < |s| ==> drop(s[k]))
  {
    var left := TrimLeft(s, drop);
    var r := TrimRight(left, drop);
    var i := |s| - |left|;
    SliceOfSuffix(s, i, |r|);
    StripTailDropped(s, left, r, i, drop);
  }

  /** The characters `TrimRight` cut from the suffix `left` of `s` are
      dropped ones. */
  lemma StripTailDropped(s: string, left: string, r: string, i: nat, drop: char -> bool)
    requires i <= |s| && left == s[i..] && |r| <= |left|
    requires forall k :: |r| <= k < |left| ==> drop(left[k])
    ensures forall k :: i + |r| <= k < |s| ==> drop(s[k])
  {
    forall k | i + |r| <= k < |s|
      ensures drop(s[k])
    {
      assert s[k] == left[k - i];
    }
  }

  /** `s.strip()` */
  function Strip(s: string): string {
    StripWhere(s, IsSpace)
  }

  /** `s.strip(c)` for a single character `c`: every leading and every
      trailing copy of `c` goes, not just one. */
  function StripChar(s: string, c: char): string {
    StripWhere(s, IsChar(c))
  }

  /** The test "is the character `c`". */
  function IsChar(c: char): char -> bool {
    x => x == c
  }

  /** Stripping twice strips nothing more. */
  lemma StripWhereIdempotent(s: string, drop: char -> bool)
    ensures StripWhere(StripWhere(s, drop), drop) == StripWhere(s, drop)
  {
    var r := StripWhere(s, drop);
    assert TrimLeft(r, drop) == r;
    assert TrimRight(r, drop) == r;
  }

  /** The position of the first `c` in `s`, if any (`s.index(c)`). */
  function FirstIndexOf(s: string, c: char): (r: Option<nat>)
    ensures r.Some? ==> r.value < |s| && s[r.value] == c && c !in s[..r.value]
    ensures r.None? ==> c !in s
  {
    if s == [] then None
    else if s[0] == c then Some(0)
    else match FirstIndexOf(s[1..], c)
      case None => None
      case Some(i) =>
        assert s[..i + 1] == [s[0]] + s[1..][..i];
        Some(i + 1)
  }

  /** `s.split(c, 1)[1]`: the text after the first `c`; `None` where Python
      raises `IndexError` because `s` holds no `c`. */
  function AfterFirst(s: string, c: char): (r: Option<string>)
    ensures r.None? <==> c !in s
    ensures r.Some? ==> exists i :: 0 <= i < |s| && s[i] == c && c !in s[..i] && r.value == s[i + 1..]
  {
    match FirstIndexOf(s, c)
    case None => None
    case Some(i) => Some(s[i + 1..])
  }
}
