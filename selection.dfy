/** Work-list selection shared by the upload and download scripts: keep the
    entries a predicate accepts, resume at the first entry whose name holds
    the `start_from` text, then cut to `limit` entries. */
module Selection {
  import opened Wrappers
  import opened Text

  /** A prefix one longer is the shorter prefix and the next entry. */
  lemma PrefixSnoc<T>(s: seq<T>, i: nat)
    requires i < |s|
    ensures s[..i + 1] == s[..i] + [s[i]]
  {
  }

  /** The entries `p` accepts, in their original order. */
  function Filter<T>(s: seq<T>, p: T -> bool): (r: seq<T>)
    ensures |r| <= |s|
    ensures forall k :: 0 <= k < |r| ==> p(r[k])
  {
    if s == [] then [] else Filter(s[..|s| - 1], p) + (if p(s[|s| - 1]) then [s[|s| - 1]] else [])
  }

  /** An entry survives the filter exactly when it was there and is accepted. */
  lemma {:induction false} FilterMembers<T>(s: seq<T>, p: T -> bool, x: T)
    ensures x in Filter(s, p) <==> x in s && p(x)
  {
    if s != [] {
      FilterMembers(s[..|s| - 1], p, x);
      assert s == s[..|s| - 1] + [s[|s| - 1]];
    }
  }

  /** Filtering keeps the input's order: the survivors of a concatenation are
      the survivors of its first part followed by those of its second. */
  lemma {:induction false} FilterAppend<T>(a: seq<T>, b: seq<T>, p: T -> bool)
    ensures Filter(a + b, p) == Filter(a, p) + Filter(b, p)
    decreases |b|
  {
    if b == [] {
      assert a + b == a;
    } else {
      var init := b[..|b| - 1];
      assert (a + b)[..|a + b| - 1] == a + init;
      assert (a + b)[|a + b| - 1] == b[|b| - 1];
      FilterAppend(a, init, p);
    }
  }

  /** The first entry survives first, when it survives at all. */
  lemma FilterCons<T>(x: T, s: seq<T>, p: T -> bool)
    ensures Filter([x] + s, p) == (if p(x) then [x] else []) + Filter(s, p)
  {
    var single := [x];
    assert single[..|single| - 1] == [];
    assert Filter(single, p) == (if p(x) then [x] else []);
    FilterAppend(single, s, p);
  }

  /** Index of the first entry whose name contains `sub`. */
  function FirstMatch<T>(s: seq<T>, name: T -> string, sub: string): (r: Option<nat>)
    ensures r.Some? ==> r.value < |s| && Contains(name(s[r.value]), sub)
    ensures r.Some? ==> forall k :: 0 <= k < r.value ==> !Contains(name(s[k]), sub)
    ensures r.None? ==> forall k :: 0 <= k < |s| ==> !Contains(name(s[k]), sub)
  {
    if s == [] then None
    else if Contains(name(s[0]), sub) then Some(0)
    else match FirstMatch(s[1..], name, sub)
      case None =>
        assert forall k :: 1 <= k < |s| ==> s[k] == s[1..][k - 1];
        None
      case Some(i) =>
        assert forall k :: 1 <= k < i + 1 ==> s[k] == s[1..][k - 1];
        Some(i + 1)
  }

  /** The `start_idx` the resume loop settles on: the first match, and 0 when
      nothing matches. */
  function StartIndex<T>(s: seq<T>, name: T -> string, sub: string): (i: nat)
    ensures i <= |s|
  {
    match FirstMatch(s, name, sub)
    case Some(i) => i
    case None => 0
  }

  /** The `for i, entry in enumerate(...)` loop that breaks at the first name
      containing `sub`. */
  method FindStartIndex<T>(s: seq<T>, name: T -> string, sub: string) returns (idx: nat)
    ensures idx <= |s|
    ensures idx < |s| ==> forall k :: 0 <= k < idx ==> !Contains(name(s[k]), sub)
    ensures (exists k :: 0 <= k < |s| && Contains(name(s[k]), sub)) ==> idx < |s| && Contains(name(s[idx]), sub)
    ensures (forall k :: 0 <= k < |s| ==> !Contains(name(s[k]), sub)) ==> idx == 0
  {
    idx := 0;
    var i := 0;
    while i < |s|
      invariant 0 <= i <= |s| && idx == 0
      invariant forall k :: 0 <= k < i ==> !Contains(name(s[k]), sub)
    {
      if Contains(name(s[i]), sub) {
        idx := i;
        return;
      }
      i := i + 1;
    }
  }

  /** Resuming never passes an entry whose name holds `sub` anywhere: the
      resume index is at or before it, and its entry matches. */
  lemma ResumeNoLater<T>(s: seq<T>, name: T -> string, sub: string, j: nat, i: nat)
    requires j < |s| && i + |sub| <= |name(s[j])| && name(s[j])[i..i + |sub|] == sub
    ensures StartIndex(s, name, sub) <= j && Contains(name(s[StartIndex(s, name, sub)]), sub)
  {
    ContainsAt(name(s[j]), sub, i);
  }

  /** `entries[start_idx:]` when `start_from` is truthy, else all entries. */
  function ResumeFrom<T>(s: seq<T>, name: T -> string, startFrom: Option<string>): (r: seq<T>)
    ensures |r| <= |s| && r == s[|s| - |r|..]
    ensures !Truthy(startFrom) ==> r == s
    ensures Truthy(startFrom) && (forall k :: 0 <= k < |s| ==> !Contains(name(s[k]), startFrom.value)) ==> r == s
    ensures Truthy(startFrom) && (exists k :: 0 <= k < |s| && Contains(name(s[k]), startFrom.value)) ==>
              r != [] && Contains(name(r[0]), startFrom.value)
              && forall k :: 0 <= k < |s| - |r| ==> !Contains(name(s[k]), startFrom.value)
  {
    if Truthy(startFrom) then s[StartIndex(s, name, startFrom.value)..] else s
  }

  /** `entries[:limit]` when `limit` is truthy (Python slicing, so a negative
      limit drops that many entries from the end), else all entries. */
  function TakeLimit<T>(s: seq<T>, limit: Option<int>): (r: seq<T>)
    ensures |r| <= |s| && r == s[..|r|]
    ensures limit.None? || limit.value == 0 ==> r == s
    ensures limit.Some? && limit.value > 0 ==> |r| == if limit.value < |s| then limit.value else |s|
    ensures limit.Some? && limit.value < 0 ==> |r| == if |s| + limit.value > 0 then |s| + limit.value else 0
  {
    if limit.None? || limit.value == 0 then s
    else if limit.value > 0 then (if limit.value < |s| then s[..limit.value] else s)
    else if |s| + limit.value > 0 then s[..|s| + limit.value]
    else []
  }

  /** The whole work-list rule: the result is one contiguous window of the
      input that starts at the resume point. */
  function WorkList<T>(s: seq<T>, name: T -> string, startFrom: Option<string>, limit: Option<int>): (r: seq<T>)
    ensures |s| - |ResumeFrom(s, name, startFrom)| + |r| <= |s|
    ensures r == s[|s| - |ResumeFrom(s, name, startFrom)|..|s| - |ResumeFrom(s, name, startFrom)| + |r|]
  {
    TakeLimit(ResumeFrom(s, name, startFrom), limit)
  }
}
