/**
 * The JavaScript string built-ins the core relies on, on `seq<char>`:
 * `trim`, `includes`, `startsWith`, `substring`, `toLowerCase` (ASCII letters),
 * `join`, template interpolation of a possibly `undefined` value, and the
 * concatenation that `forEach`-loops with `+=` produce.
 */
module Strings {
  import opened Wrappers

  /** The code points JavaScript counts as WhiteSpace or LineTerminator:
      what `String.prototype.trim` strips and what `\s` matches. */
  predicate IsSpace(c: char) {
    c == '\t' || c == '\n' || c == '\U{B}' || c == '\U{C}' || c == '\r' || c == ' '
    || c == '\U{A0}' || c == '\U{1680}' || ('\U{2000}' <= c <= '\U{200A}')
    || c == '\U{2028}' || c == '\U{2029}' || c == '\U{202F}' || c == '\U{205F}'
    || c == '\U{3000}' || c == '\U{FEFF}'
  }

  /** The LineTerminator code points: the characters a regular-expression `.` does not match without the `s` flag. */
  predicate IsLineTerminator(c: char) {
    c == '\n' || c == '\r' || c == '\U{2028}' || c == '\U{2029}'
  }

  /** `pat` occurs in `s` at index `i`. */
  predicate At(s: string, i: int, pat: string) {
    0 <= i && i + |pat| <= |s| && s[i..i + |pat|] == pat
  }

  /** The middle piece of a concatenation occurs where the first piece ends. */
  lemma AtMiddle(a: string, b: string, c: string)
    ensures At(a + b + c, |a|, b)
  {
    assert (a + b + c)[|a|..|a| + |b|] == b;
  }

  /** A slice is its first character followed by the rest of it. */
  lemma SliceFront(s: string, p: nat, q: nat, rest: string)
    requires p < q <= |s|
    ensures [s[p]] + (s[p + 1..q] + rest) == s[p..q] + rest
  {
    assert s[p..q] == [s[p]] + s[p + 1..q];
  }

  /** A text between two others, grouped either way. */
  lemma Middle(a: string, m: string, b: string)
    ensures a + m + b == a + (m + b)
  {
  }

  /** Three pieces between two texts, grouped as one. */
  lemma MiddleThree(a: string, x: string, y: string, z: string, b: string)
    ensures a + x + y + z + b == a + (x + y + z) + b
  {
  }

  /** The three pieces of a suffix, seen in the whole string. */
  lemma SuffixParts(s: string, p: nat, x: string, y: string, z: string)
    requires p <= |s| && s[p..] == x + y + z
    ensures p + |x| + |y| <= |s|
    ensures forall k :: p <= k < p + |x| ==> s[k] == x[k - p]
    ensures s[p + |x|..p + |x| + |y|] == y
    ensures s[p + |x| + |y|..] == z
  {
    forall k | p <= k < p + |x| ensures s[k] == x[k - p] {
      assert s[k] == s[p..][k - p];
    }
    assert s[p + |x|..p + |x| + |y|] == s[p..][|x|..|x| + |y|];
    assert s[p + |x| + |y|..] == s[p..][|x| + |y|..];
  }

  /** The suffix `pat` of `s`. */
  predicate EndsWith(s: string, pat: string) {
    |pat| <= |s| && s[|s| - |pat|..] == pat
  }

  /** An occurrence inside a slice is an occurrence in the whole string. */
  lemma AtInSlice(s: string, lo: nat, hi: nat, i: nat, pat: string)
    requires lo <= hi <= |s| && At(s[lo..hi], i, pat)
    ensures At(s, lo + i, pat)
  {
    var inner, outer := s[lo..hi][i..i + |pat|], s[lo + i..lo + i + |pat|];
    assert |inner| == |outer|;
    forall t | 0 <= t < |pat| ensures inner[t] == outer[t] {
      assert inner[t] == s[lo + i + t];
    }
    assert inner == outer;
  }

  /** `pat` occurs in `s` at index `i`, compared one character at a time. */
  predicate OccursAt(s: string, i: nat, pat: string)
    decreases |pat|
  {
    if pat == [] then i <= |s| else i < |s| && s[i] == pat[0] && OccursAt(s, i + 1, pat[1..])
  }

  lemma {:induction false} OccursAtIff(s: string, i: nat, pat: string)
    ensures OccursAt(s, i, pat) <==> At(s, i, pat)
    decreases |pat|
  {
    if pat != [] {
      OccursAtIff(s, i + 1, pat[1..]);
      if i + |pat| <= |s| {
        var w := s[i..i + |pat|];
        assert w[0] == s[i] && w[1..] == s[i + 1..i + 1 + |pat[1..]|];
        if At(s, i, pat) {
          assert w == pat;
          assert OccursAt(s, i, pat);
        }
        if OccursAt(s, i, pat) {
          assert w == [w[0]] + w[1..] && pat == [pat[0]] + pat[1..];
        }
      } else {
        assert !At(s, i + 1, pat[1..]);
      }
    }
  }

  /** `s.startsWith(pat)`. */
  predicate StartsWith(s: string, pat: string) {
    |pat| <= |s| && s[..|pat|] == pat
  }

  /** No occurrence of `c` in `s`. */
  predicate Lacks(s: string, c: char) {
    forall k :: 0 <= k < |s| ==> s[k] != c
  }

  lemma LacksAppend(a: string, b: string, c: char)
    ensures Lacks(a + b, c) <==> Lacks(a, c) && Lacks(b, c)
  {
    if Lacks(a, c) && Lacks(b, c) {
      forall k | 0 <= k < |a + b| ensures (a + b)[k] != c {
        if k >= |a| {
          assert (a + b)[k] == b[k - |a|];
        }
      }
    }
    if Lacks(a + b, c) {
      forall k | 0 <= k < |a| ensures a[k] != c {
        assert (a + b)[k] == a[k];
      }
      forall k | 0 <= k < |b| ensures b[k] != c {
        assert (a + b)[|a| + k] == b[k];
      }
    }
  }

  /** `s.indexOf(pat, from)`: the first occurrence of `pat` at or after `from`
      (characterised by `IndexOfFirst`). */
  function IndexOf(s: string, pat: string, from: nat): (r: Option<nat>)
    ensures r.Some? ==> from <= r.value && r.value + |pat| <= |s|
    decreases |s| - from
  {
    if from + |pat| > |s| then None
    else if OccursAt(s, from, pat) then Some(from)
    else IndexOf(s, pat, from + 1)
  }

  /** The index found is an occurrence and no occurrence comes before it; when none is
      found there is no occurrence at or after `from`. */
  lemma {:induction false} IndexOfFirst(s: string, pat: string, from: nat)
    ensures IndexOf(s, pat, from).Some? ==> At(s, IndexOf(s, pat, from).value, pat)
    ensures IndexOf(s, pat, from).Some? ==> forall k :: from <= k < IndexOf(s, pat, from).value ==> !At(s, k, pat)
    ensures IndexOf(s, pat, from).None? ==> forall k :: from <= k ==> !At(s, k, pat)
    decreases |s| - from
  {
    OccursAtIff(s, from, pat);
    if from + |pat| <= |s| && !At(s, from, pat) {
      IndexOfFirst(s, pat, from + 1);
    }
  }

  /** An occurrence with none before it, from `from` on, is the one found. */
  lemma IndexOfAt(s: string, pat: string, from: nat, j: nat)
    requires from <= j && At(s, j, pat)
    requires forall k :: from <= k < j ==> !At(s, k, pat)
    ensures IndexOf(s, pat, from) == Some(j)
  {
    IndexOfFirst(s, pat, from);
  }

  /** `s.includes(pat)`. */
  predicate Contains(s: string, pat: string) {
    IndexOf(s, pat, 0).Some?
  }

  lemma ContainsAt(s: string, pat: string, i: nat)
    requires At(s, i, pat)
    ensures Contains(s, pat)
  {
    IndexOfFirst(s, pat, 0);
  }

  /** The end of the run of white space that starts at index `i`. */
  function SpaceRunEnd(s: string, i: nat): (r: nat)
    requires i <= |s|
    ensures i <= r <= |s|
    decreases |s| - i
  {
    if i < |s| && IsSpace(s[i]) then SpaceRunEnd(s, i + 1) else i
  }

  /** An occurrence in the second piece of a concatenation, seen from the whole string. */
  lemma {:induction false} OccursAtShift(x: string, y: string, i: nat, pat: string)
    ensures OccursAt(x + y, |x| + i, pat) == OccursAt(y, i, pat)
    decreases |pat|
  {
    if pat != [] {
      OccursAtShift(x, y, i + 1, pat[1..]);
      if i < |y| {
        assert (x + y)[|x| + i] == y[i];
      }
    }
  }

  /** Searching the second piece of a concatenation finds the same occurrence, shifted. */
  lemma {:induction false} IndexOfShift(x: string, y: string, pat: string, from: nat)
    ensures IndexOf(x + y, pat, |x| + from) ==
      if IndexOf(y, pat, from).Some? then Some(|x| + IndexOf(y, pat, from).value) else None
    decreases |y| - from
  {
    OccursAtShift(x, y, from, pat);
    if from + |pat| <= |y| && !OccursAt(y, from, pat) {
      assert pat != [];
      IndexOfShift(x, y, pat, from + 1);
    }
  }

  /** A run of white space in the second piece of a concatenation ends at the same place, shifted. */
  lemma {:induction false} SpaceRunEndShift(x: string, y: string, i: nat)
    requires i <= |y|
    ensures SpaceRunEnd(x + y, |x| + i) == |x| + SpaceRunEnd(y, i)
    decreases |y| - i
  {
    if i < |y| {
      assert (x + y)[|x| + i] == y[i];
      if IsSpace(y[i]) {
        SpaceRunEndShift(x, y, i + 1);
      }
    }
  }

  /** The start of the run of white space that ends just before index `j`. */
  function SpaceRunStart(s: string, j: nat): (r: nat)
    requires j <= |s|
    ensures r <= j
  {
    if 0 < j && IsSpace(s[j - 1]) then SpaceRunStart(s, j - 1) else j
  }

  lemma {:induction false} SpaceRunEndSpec(s: string, i: nat)
    requires i <= |s|
    ensures forall k :: i <= k < SpaceRunEnd(s, i) ==> IsSpace(s[k])
    ensures SpaceRunEnd(s, i) == |s| || !IsSpace(s[SpaceRunEnd(s, i)])
    decreases |s| - i
  {
    if i < |s| && IsSpace(s[i]) {
      SpaceRunEndSpec(s, i + 1);
    }
  }

  lemma {:induction false} SpaceRunStartSpec(s: string, j: nat)
    requires j <= |s|
    ensures forall k :: SpaceRunStart(s, j) <= k < j ==> IsSpace(s[k])
    ensures SpaceRunStart(s, j) == 0 || !IsSpace(s[SpaceRunStart(s, j) - 1])
  {
    if 0 < j && IsSpace(s[j - 1]) {
      SpaceRunStartSpec(s, j - 1);
    }
  }

  /** Where the trimmed text begins in `s`: after the leading white space. */
  function TrimOffset(s: string): nat
  {
    SpaceRunEnd(s, 0)
  }

  /** `s.trim()`: the part of `s` between its leading and its trailing white space. */
  function Trim(s: string): (r: string)
    ensures |r| <= |s|
  {
    var lo, hi := SpaceRunEnd(s, 0), SpaceRunStart(s, |s|);
    if lo <= hi then s[lo..hi] else []
  }

  /** The trimmed text is the piece of the original starting at `TrimOffset(s)`; it neither
      starts nor ends with white space, and only white space lies around it. */
  lemma TrimSpec(s: string)
    ensures TrimOffset(s) + |Trim(s)| <= |s| && Trim(s) == s[TrimOffset(s)..TrimOffset(s) + |Trim(s)|]
    ensures forall k :: 0 <= k < TrimOffset(s) ==> IsSpace(s[k])
    ensures forall k :: TrimOffset(s) + |Trim(s)| <= k < |s| ==> IsSpace(s[k])
    ensures Trim(s) == [] || (!IsSpace(Trim(s)[0]) && !IsSpace(Trim(s)[|Trim(s)| - 1]))
  {
    SpaceRunEndSpec(s, 0);
    SpaceRunStartSpec(s, |s|);
  }

  /** A string that neither starts nor ends with white space is its own trim. */
  lemma TrimOfTrimmed(s: string)
    requires s == [] || (!IsSpace(s[0]) && !IsSpace(s[|s| - 1]))
    ensures Trim(s) == s
  {
    SpaceRunEndSpec(s, 0);
    SpaceRunStartSpec(s, |s|);
  }

  /** A lower-case ASCII letter for an upper-case one; every other character unchanged. */
  function LowerChar(c: char): char {
    if 'A' <= c <= 'Z' then (c as int + 32) as char else c
  }

  /** `s.toLowerCase()`, restricted to ASCII letters. */
  function Lower(s: string): (r: string)
    ensures |r| == |s|
  {
    seq(|s|, k requires 0 <= k < |s| => LowerChar(s[k]))
  }

  lemma LowerSlice(s: string, i: nat, j: nat)
    requires i <= j <= |s|
    ensures Lower(s)[i..j] == Lower(s[i..j])
  {
  }

  /** `s.substring(0, n)`. */
  function Take(s: string, n: nat): (r: string)
    ensures |r| == if n < |s| then n else |s|
    ensures StartsWith(s, r)
  {
    if n < |s| then s[..n] else s
  }

  /** `s.substring(n)`. */
  function Drop(s: string, n: nat): (r: string)
    ensures |r| == if n < |s| then |s| - n else 0
    ensures s == Take(s, n) + r
  {
    if n < |s| then s[n..] else []
  }

  /** The text a template literal prints for a property that may be `undefined`. */
  function Show(v: Option<string>): string {
    if v.Some? then v.value else "undefined"
  }

  /** JavaScript truthiness of a string property: present and not empty. */
  predicate Truthy(v: Option<string>) {
    v.Some? && v.value != ""
  }

  /** The pieces of a template literal, one after another. */
  function Concat(parts: seq<string>): string
  {
    if parts == [] then "" else Concat(parts[..|parts| - 1]) + parts[|parts| - 1]
  }

  /** `xs.join(sep)`. */
  function Join(xs: seq<string>, sep: string): string
  {
    if xs == [] then ""
    else if |xs| == 1 then xs[0]
    else Join(xs[..|xs| - 1], sep) + sep + xs[|xs| - 1]
  }

  /** Concatenation seen from the front: the first piece, then the others. */
  lemma {:induction false} ConcatFront(parts: seq<string>)
    requires parts != []
    ensures Concat(parts) == parts[0] + Concat(parts[1..])
  {
    if |parts| > 1 {
      var init := parts[..|parts| - 1];
      ConcatFront(init);
      assert init[1..] == parts[1..][..|parts[1..]| - 1];
    }
  }

  /** A join seen from the front: the first piece, the separator, and the join of the rest. */
  lemma {:induction false} JoinFront(xs: seq<string>, sep: string)
    requires |xs| > 1
    ensures Join(xs, sep) == xs[0] + sep + Join(xs[1..], sep)
  {
    if |xs| > 2 {
      var init := xs[..|xs| - 1];
      JoinFront(init, sep);
      assert init[1..] == xs[1..][..|xs[1..]| - 1];
    }
  }

  /** The text a loop `for (x of xs) acc += f(x)` appends to `acc`. */
  function ConcatMap<T>(xs: seq<T>, f: T -> string): string
  {
    if xs == [] then "" else ConcatMap(xs[..|xs| - 1], f) + f(xs[|xs| - 1])
  }

  /** Rendering a concatenation of lists renders each list in turn. */
  lemma {:induction false} ConcatMapAppend<T>(xs: seq<T>, ys: seq<T>, f: T -> string)
    ensures ConcatMap(xs + ys, f) == ConcatMap(xs, f) + ConcatMap(ys, f)
    decreases |ys|
  {
    if ys == [] {
      assert xs + ys == xs;
    } else {
      var zs := ys[..|ys| - 1];
      assert (xs + ys)[..|xs + ys| - 1] == xs + zs;
      ConcatMapAppend(xs, zs, f);
    }
  }

  /** Each item's text stands in its own place, after the text of every earlier item
      and before the text of every later one. */
  lemma {:induction false} ConcatMapAt<T>(xs: seq<T>, i: nat, f: T -> string)
    requires i < |xs|
    ensures ConcatMap(xs, f) == ConcatMap(xs[..i], f) + f(xs[i]) + ConcatMap(xs[i + 1..], f)
  {
    var front, back := xs[..i + 1], xs[i + 1..];
    assert xs == front + back;
    ConcatMapAppend(front, back, f);
    assert front[..|front| - 1] == xs[..i];
    assert ConcatMap(front, f) == ConcatMap(xs[..i], f) + f(xs[i]);
  }

  /** Rendering one more item appends that item's text, after any text before it. */
  lemma ConcatMapStep<T>(pre: string, xs: seq<T>, i: nat, f: T -> string)
    requires i < |xs|
    ensures pre + ConcatMap(xs[..i], f) + f(xs[i]) == pre + ConcatMap(xs[..i + 1], f)
  {
    assert xs[..i + 1][..i] == xs[..i];
  }

  /** Regrouping a concatenation of four texts. */
  lemma Regroup(a: string, b: string, c: string, d: string)
    ensures a + b + c + d == a + (b + c + d)
  {
  }

  /** Regrouping a concatenation of six texts around each of its middle four. */
  lemma Regroup6(a: string, b: string, c: string, d: string, e: string, f: string)
    ensures a + b + c + d + e + f == a + b + (c + d + e + f)
    ensures a + b + c + d + e + f == (a + b) + c + (d + e + f)
    ensures a + b + c + d + e + f == (a + b + c) + d + (e + f)
    ensures a + b + c + d + e + f == (a + b + c + d) + e + f
  {
  }

  /** Inside any surrounding text, item `i`'s text starts where the text of the items before
      it ends, and the next item's text starts right after it. */
  lemma ConcatMapPlaced<T>(pre: string, xs: seq<T>, f: T -> string, post: string, i: nat)
    requires i < |xs|
    ensures At(pre + ConcatMap(xs, f) + post, |pre| + |ConcatMap(xs[..i], f)|, f(xs[i]))
    ensures |ConcatMap(xs[..i + 1], f)| == |ConcatMap(xs[..i], f)| + |f(xs[i])|
  {
    ConcatMapAt(xs, i, f);
    ConcatMapStep([], xs, i, f);
    var a, b := ConcatMap(xs[..i], f), ConcatMap(xs[i + 1..], f);
    assert pre + ConcatMap(xs, f) + post == (pre + a) + f(xs[i]) + (b + post);
    AtMiddle(pre + a, f(xs[i]), b + post);
  }

  /** Item `i`'s text inside a block `b + items + c` that itself sits between `a` and `d`. */
  lemma ConcatMapPlacedIn<T>(a: string, b: string, xs: seq<T>, f: T -> string, c: string, d: string, i: nat)
    requires i < |xs|
    ensures At(a + (b + ConcatMap(xs, f) + c) + d, |a| + |b| + |ConcatMap(xs[..i], f)|, f(xs[i]))
    ensures |ConcatMap(xs[..i + 1], f)| == |ConcatMap(xs[..i], f)| + |f(xs[i])|
  {
    assert a + (b + ConcatMap(xs, f) + c) + d == (a + b) + ConcatMap(xs, f) + (c + d);
    ConcatMapPlaced(a + b, xs, f, c + d, i);
  }

  lemma EndsWithAppend(a: string, b: string)
    ensures EndsWith(a + b, b)
  {
    assert (a + b)[|a + b| - |b|..] == b;
  }
}
