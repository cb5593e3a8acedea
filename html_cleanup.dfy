/**
 * The clean-up `generateResponse` applies to the model's text before rendering it: a
 * chain of thirteen global regular-expression replacements that turn stray HTML tags
 * into Markdown. A paired rule `<t>(.*?)</t>` matches an opening tag, the shortest text
 * after it that reaches a closing tag, and that closing tag; `.` does not match a line
 * terminator, so a pair never spans lines.
 */
module HtmlCleanup {
  import opened Wrappers
  import opened Strings

  /** One `.replace(regex, replacement)` of the chain. */
  datatype Rule =
    | Pair(open: string, close: string, before: string, after: string)  // `<t>(.*?)</t>` to `before + $1 + after`
    | Delete(tag: string)                                             // a fixed tag to `''`
    | LineBreak                                                       // `<br\s*\/?>` to a newline

  const Heading1: Rule := Pair("<h1>", "</h1>", "# ", "")
  const Heading2: Rule := Pair("<h2>", "</h2>", "## ", "")
  const Heading3: Rule := Pair("<h3>", "</h3>", "### ", "")
  const Strong: Rule := Pair("<strong>", "</strong>", "**", "**")
  const Emphasis: Rule := Pair("<em>", "</em>", "*", "*")
  const Paragraph: Rule := Pair("<p>", "</p>", "", "\n")
  const Code: Rule := Pair("<code>", "</code>", "`", "`")
  const ListItem: Rule := Pair("<li>", "</li>", "- ", "")
  const UnorderedOpen: Rule := Delete("<ul>")
  const UnorderedClose: Rule := Delete("</ul>")
  const OrderedOpen: Rule := Delete("<ol>")
  const OrderedClose: Rule := Delete("</ol>")

  /** The replacements in the order the chain applies them. */
  const Rules: seq<Rule> := [
    Heading1, Heading2, Heading3, Strong, Emphasis, Paragraph, Code,
    UnorderedOpen, UnorderedClose, OrderedOpen, OrderedClose,
    ListItem, LineBreak
  ]

  /** The fixed text every match of the rule starts with. */
  function Lead(r: Rule): string {
    match r
    case Pair(open, _, _, _) => open
    case Delete(tag) => tag
    case LineBreak => "<br"
  }

  /** Every rule of the chain starts with `<`. */
  predicate TagRule(r: Rule) {
    |Lead(r)| > 1 && Lead(r)[0] == '<'
  }

  lemma RulesAreTagRules()
    ensures forall k :: 0 <= k < |Rules| ==> TagRule(Rules[k])
  {
  }

  /** A match: how many characters it covers and the text that replaces them. */
  datatype Hit = Hit(length: nat, text: string)

  /** No line terminator in `s[lo..hi]`: what `(.*?)` may capture. */
  predicate OnOneLine(s: string, lo: nat, hi: nat)
    requires lo <= hi <= |s|
  {
    forall k :: lo <= k < hi ==> !IsLineTerminator(s[k])
  }

  /** The match of the rule that starts at index `i`, if there is one. */
  function MatchAt(r: Rule, s: string, i: nat): (h: Option<Hit>)
    requires TagRule(r)
    ensures h.Some? ==> OccursAt(s, i, Lead(r)) && 0 < h.value.length && i + h.value.length <= |s|
  {
    if !OccursAt(s, i, Lead(r)) then None
    else
      OccursAtIff(s, i, Lead(r));
      match r
      case Pair(open, close, before, after) =>
        var from := i + |open|;
        var j := IndexOf(s, close, from);
        if j.Some? && OnOneLine(s, from, j.value) then
          Some(Hit(j.value + |close| - i, before + s[from..j.value] + after))
        else None
      case Delete(tag) => Some(Hit(|tag|, ""))
      case LineBreak =>
        var e := SpaceRunEnd(s, i + 3);
        if e < |s| && s[e] == '>' then Some(Hit(e + 1 - i, "\n"))
        else if e + 1 < |s| && s[e] == '/' && s[e + 1] == '>' then Some(Hit(e + 2 - i, "\n"))
        else None
  }

  /** `s.replace(regex, replacement)` from index `p` on: each match, leftmost first, is
      replaced and the search resumes after it; every other character is kept. */
  function RewriteFrom(r: Rule, s: string, p: nat): string
    requires TagRule(r) && p <= |s|
    decreases |s| - p
  {
    if p == |s| then ""
    else
      match MatchAt(r, s, p)
      case Some(h) => h.text + RewriteFrom(r, s, p + h.length)
      case None => [s[p]] + RewriteFrom(r, s, p + 1)
  }

  function Rewrite(r: Rule, s: string): string
    requires TagRule(r)
  {
    RewriteFrom(r, s, 0)
  }

  /** The replacements applied one after the other. */
  function ApplyRules(rs: seq<Rule>, s: string): string
    requires forall k :: 0 <= k < |rs| ==> TagRule(rs[k])
  {
    if rs == [] then s else ApplyRules(rs[1..], Rewrite(rs[0], s))
  }

  /** The whole clean-up chain. */
  function Clean(s: string): string
  {
    ApplyRules(Rules, s)
  }

  /** A rule whose leading text does not occur in `s` from `p` on leaves that part unchanged. */
  lemma {:induction false} RewriteFromUnchanged(r: Rule, s: string, p: nat)
    requires TagRule(r) && p <= |s|
    requires forall k :: p <= k < |s| ==> !OccursAt(s, k, Lead(r))
    ensures RewriteFrom(r, s, p) == s[p..]
    decreases |s| - p
  {
    if p < |s| {
      RewriteFromUnchanged(r, s, p + 1);
      assert s[p..] == [s[p]] + s[p + 1..];
    }
  }

  /** A rule whose leading text does not occur in `s` leaves it unchanged. */
  lemma RewriteUnchanged(r: Rule, s: string)
    requires TagRule(r) && !Contains(s, Lead(r))
    ensures Rewrite(r, s) == s
  {
    IndexOfFirst(s, Lead(r), 0);
    forall k | 0 <= k < |s| ensures !OccursAt(s, k, Lead(r)) {
      OccursAtIff(s, k, Lead(r));
    }
    RewriteFromUnchanged(r, s, 0);
  }

  /** Text without a `<` holds no match of a tag rule: the rule leaves it unchanged. */
  lemma RewriteNoAngle(r: Rule, s: string)
    requires TagRule(r) && Lacks(s, '<')
    ensures Rewrite(r, s) == s
  {
    RewriteFromUnchanged(r, s, 0);
  }

  /** A paired rule's match depends only on the text from where it starts. */
  lemma PairMatchShift(open: string, close: string, before: string, after: string, x: string, y: string, i: nat)
    requires TagRule(Pair(open, close, before, after)) && OccursAt(y, i, open)
    ensures MatchAt(Pair(open, close, before, after), x + y, |x| + i) == MatchAt(Pair(open, close, before, after), y, i)
  {
    var s := x + y;
    OccursAtShift(x, y, i, open);
    OccursAtIff(y, i, open);
    var from := i + |open|;
    IndexOfShift(x, y, close, from);
    var j := IndexOf(y, close, from);
    if j.Some? {
      assert s[|x| + from..|x| + j.value] == y[from..j.value];
      assert OnOneLine(s, |x| + from, |x| + j.value) == OnOneLine(y, from, j.value) by {
        forall k | |x| + from <= k < |x| + j.value ensures s[k] == y[k - |x|] { }
        forall k | from <= k < j.value ensures y[k] == s[|x| + k] { }
      }
    }
  }

  /** The line-break rule's match depends only on the text from where it starts. */
  lemma LineBreakMatchShift(x: string, y: string, i: nat)
    requires OccursAt(y, i, "<br")
    ensures MatchAt(LineBreak, x + y, |x| + i) == MatchAt(LineBreak, y, i)
  {
    var s := x + y;
    OccursAtShift(x, y, i, "<br");
    OccursAtIff(y, i, "<br");
    SpaceRunEndShift(x, y, i + 3);
    var e := SpaceRunEnd(y, i + 3);
    if e < |y| {
      assert s[|x| + e] == y[e];
    }
    if e + 1 < |y| {
      assert s[|x| + e + 1] == y[e + 1];
    }
  }

  /** A match depends only on the text from where it starts. */
  lemma MatchAtShift(r: Rule, x: string, y: string, i: nat)
    requires TagRule(r)
    ensures MatchAt(r, x + y, |x| + i) == MatchAt(r, y, i)
  {
    OccursAtShift(x, y, i, Lead(r));
    if OccursAt(y, i, Lead(r)) {
      match r
      case Pair(open, close, before, after) => PairMatchShift(open, close, before, after, x, y, i);
      case Delete(_) =>
      case LineBreak => LineBreakMatchShift(x, y, i);
    }
  }

  /** The rule's leading text does not start at `k`. */
  ghost predicate NoLeadAt(r: Rule, s: string, k: nat) {
    !OccursAt(s, k, Lead(r))
  }

  /** Where the rule's leading text does not start, no match starts. */
  lemma NoLeadNoMatch(r: Rule, s: string, p: nat)
    requires TagRule(r) && NoLeadAt(r, s, p)
    ensures MatchAt(r, s, p).None?
  {
  }

  /** Where no match starts, the character is copied. */
  lemma RewriteFromCopies(r: Rule, s: string, p: nat)
    requires TagRule(r) && p < |s| && MatchAt(r, s, p).None?
    ensures RewriteFrom(r, s, p) == [s[p]] + RewriteFrom(r, s, p + 1)
  {
  }

  /** Where the rule's leading text does not start, the character is copied. */
  lemma CopiesAt(r: Rule, s: string, k: nat)
    requires TagRule(r) && k < |s| && NoLeadAt(r, s, k)
    ensures RewriteFrom(r, s, k) == [s[k]] + RewriteFrom(r, s, k + 1)
  {
    NoLeadNoMatch(r, s, k);
    RewriteFromCopies(r, s, k);
  }

  /** A stretch in which the rule's leading text never starts is copied as it is. */
  lemma {:induction false} RewriteFromSkip(r: Rule, s: string, p: nat, q: nat)
    requires TagRule(r) && p <= q <= |s|
    requires forall k :: p <= k < q ==> NoLeadAt(r, s, k)
    ensures RewriteFrom(r, s, p) == s[p..q] + RewriteFrom(r, s, q)
    decreases q - p
  {
    if p < q {
      CopiesAt(r, s, p);
      RewriteFromSkip(r, s, p + 1, q);
      SliceFront(s, p, q, RewriteFrom(r, s, q));
    }
  }

  /** Where a match starts, its replacement is written and the search resumes after it. */
  lemma RewriteFromReplaces(r: Rule, s: string, p: nat, n: nat, text: string)
    requires TagRule(r) && MatchAt(r, s, p) == Some(Hit(n, text))
    ensures p + n <= |s|
    ensures RewriteFrom(r, s, p) == text + RewriteFrom(r, s, p + n)
  {
    assert MatchAt(r, s, p).value == Hit(n, text);
  }

  /** The `g` flag, one match at a time: from `p`, the text up to the next match at `q` is
      copied, the match is replaced, and the search goes on after it, so that a later
      match is replaced in turn. */
  lemma RewriteFromAt(r: Rule, s: string, p: nat, q: nat, n: nat, text: string)
    requires TagRule(r) && p <= q <= |s|
    requires forall k :: p <= k < q ==> NoLeadAt(r, s, k)
    requires MatchAt(r, s, q) == Some(Hit(n, text))
    ensures q + n <= |s|
    ensures RewriteFrom(r, s, p) == s[p..q] + text + RewriteFrom(r, s, q + n)
  {
    RewriteFromSkip(r, s, p, q);
    RewriteFromReplaces(r, s, q, n, text);
    Middle(s[p..q], text, RewriteFrom(r, s, q + n));
  }

  /** Where no character in `s[lo..hi]` is a `<`, no tag rule's leading text starts there. */
  lemma NoLeadWithoutAngle(r: Rule, s: string, lo: nat, hi: nat)
    requires TagRule(r) && lo <= hi <= |s|
    requires forall k :: lo <= k < hi ==> s[k] != '<'
    ensures forall k :: lo <= k < hi ==> NoLeadAt(r, s, k)
  {
  }

  /** Text without `<` from `e` on is copied as it is. */
  lemma RewriteFromAngleFree(r: Rule, s: string, e: nat)
    requires TagRule(r) && e <= |s|
    requires forall k :: e <= k < |s| ==> s[k] != '<'
    ensures RewriteFrom(r, s, e) == s[e..]
  {
    NoLeadWithoutAngle(r, s, e, |s|);
    RewriteFromSkip(r, s, e, |s|);
  }

  /** The first match at `i`, replaced by `text`, when the text after it is left as it
      is: the replacement keeps the text around the match and puts `text` in its place. */
  lemma RewriteAround(r: Rule, s: string, i: nat, n: nat, text: string)
    requires TagRule(r) && i + n <= |s|
    requires forall k :: 0 <= k < i ==> NoLeadAt(r, s, k)
    requires RewriteFrom(r, s, i) == text + RewriteFrom(r, s, i + n)
    requires RewriteFrom(r, s, i + n) == s[i + n..]
    ensures Rewrite(r, s) == s[..i] + text + s[i + n..]
  {
    RewriteFromSkip(r, s, 0, i);
    assert s[0..i] == s[..i];
    Middle(s[..i], text, s[i + n..]);
  }

  /** One match at `i` in text with no other `<`: the replacement keeps the text around
      the match and puts the match's replacement in its place. */
  lemma RewriteOneMatch(r: Rule, s: string, i: nat, n: nat, text: string)
    requires TagRule(r) && i + n <= |s|
    requires forall k :: 0 <= k < i ==> s[k] != '<'
    requires forall k :: i + n <= k < |s| ==> s[k] != '<'
    requires MatchAt(r, s, i) == Some(Hit(n, text))
    ensures Rewrite(r, s) == s[..i] + text + s[i + n..]
  {
    NoLeadWithoutAngle(r, s, 0, i);
    RewriteFromAngleFree(r, s, i + n);
    RewriteFromReplaces(r, s, i, n, text);
    RewriteAround(r, s, i, n, text);
  }

  /** A match `m` between texts `a` and `b` without `<`: the replacement keeps `a` and `b`
      and puts the match's replacement in place of `m`. */
  lemma RewriteInContext(r: Rule, a: string, m: string, b: string, text: string)
    requires TagRule(r) && Lacks(a, '<') && Lacks(b, '<')
    requires MatchAt(r, m + b, 0) == Some(Hit(|m|, text))
    ensures Rewrite(r, a + m + b) == a + text + b
  {
    var s := a + m + b;
    var e := |a| + |m|;
    assert s == a + (m + b);
    MatchAtShift(r, a, m + b, 0);
    assert forall k :: 0 <= k < |a| ==> s[k] == a[k];
    assert forall k :: e <= k < |s| ==> s[k] == b[k - e];
    RewriteOneMatch(r, s, |a|, |m|, text);
    assert s[..|a|] == a && s[e..] == b;
  }

  /** No rule of `rs` finds its leading text anywhere in `s`. */
  ghost predicate Untouched(rs: seq<Rule>, s: string) {
    forall k, i :: 0 <= k < |rs| && 0 <= i < |s| ==> !OccursAt(s, i, Lead(rs[k]))
  }

  /** Text without a `<` holds no leading text of a tag rule. */
  lemma NoAngleUntouched(rs: seq<Rule>, s: string)
    requires forall k :: 0 <= k < |rs| ==> TagRule(rs[k])
    requires Lacks(s, '<')
    ensures Untouched(rs, s)
  {
  }

  /** Rules whose leading texts never occur in `s` leave it unchanged. */
  lemma {:induction false} ApplyRulesUnchanged(rs: seq<Rule>, s: string)
    requires forall k :: 0 <= k < |rs| ==> TagRule(rs[k])
    requires Untouched(rs, s)
    ensures ApplyRules(rs, s) == s
  {
    if rs != [] {
      RewriteFromUnchanged(rs[0], s, 0);
      assert s[0..] == s;
      assert Untouched(rs[1..], s);
      ApplyRulesUnchanged(rs[1..], s);
    }
  }

  /** Text without a `<` passes through the clean-up unchanged. */
  lemma CleanWithoutTags(s: string)
    requires Lacks(s, '<')
    ensures Clean(s) == s
  {
    NoAngleUntouched(Rules, s);
    ApplyRulesUnchanged(Rules, s);
  }

  /** Applying a prefix of the rules and then the rest is applying them all. */
  lemma {:induction false} ApplyRulesSplit(rs: seq<Rule>, n: nat, s: string)
    requires forall k :: 0 <= k < |rs| ==> TagRule(rs[k])
    requires n <= |rs|
    ensures ApplyRules(rs, s) == ApplyRules(rs[n..], ApplyRules(rs[..n], s))
  {
    if n > 0 {
      assert rs[1..][n - 1..] == rs[n..];
      assert rs[..n][1..] == rs[1..][..n - 1];
      ApplyRulesSplit(rs[1..], n - 1, Rewrite(rs[0], s));
    }
  }

  /** A paired tag around one line of text without `<` is a match, whatever follows it:
      the rule's text before it, the content, and the rule's text after it. */
  lemma {:induction false} PairMatch(open: string, close: string, before: string, after: string, x: string, b: string)
    requires TagRule(Pair(open, close, before, after)) && |close| > 0 && close[0] == '<'
    requires Lacks(x, '<') && OnOneLine(x, 0, |x|)
    ensures MatchAt(Pair(open, close, before, after), open + x + close + b, 0)
            == Some(Hit(|open| + |x| + |close|, before + x + after))
  {
    var s := open + x + close + b;
    var j := |open| + |x|;
    assert s[j..j + |close|] == close;
    forall k | |open| <= k < j ensures !At(s, k, close) {
      assert s[k] == x[k - |open|];
      OccursAtIff(s, k, close);
    }
    IndexOfAt(s, close, |open|, j);
    assert s[..|open|] == open;
    OccursAtIff(s, 0, open);
    assert s[|open|..j] == x;
    assert OnOneLine(s, |open|, j) by {
      forall k | |open| <= k < j ensures !IsLineTerminator(s[k]) {
        assert s[k] == x[k - |open|];
      }
    }
  }

  /** A paired tag around one line of text without `<`, between texts without `<`,
      becomes the Markdown form, and the text around it is kept. */
  lemma RewriteWholePair(open: string, close: string, before: string, after: string, a: string, x: string, b: string)
    requires TagRule(Pair(open, close, before, after)) && |close| > 0 && close[0] == '<'
    requires Lacks(a, '<') && Lacks(x, '<') && OnOneLine(x, 0, |x|) && Lacks(b, '<')
    ensures Rewrite(Pair(open, close, before, after), a + open + x + close + b) == a + before + x + after + b
  {
    var m := open + x + close;
    PairMatch(open, close, before, after, x, b);
    MiddleThree(a, open, x, close, b);
    MiddleThree(a, before, x, after, b);
    RewriteInContext(Pair(open, close, before, after), a, m, b, before + x + after);
  }

  /** `<br`, white space, then `>` or `/>`: a match, whatever follows it, replaced by one newline. */
  lemma LineBreakMatch(spaces: string, slash: bool, b: string)
    requires forall k :: 0 <= k < |spaces| ==> IsSpace(spaces[k])
    ensures var m := "<br" + spaces + (if slash then "/>" else ">");
      MatchAt(LineBreak, m + b, 0) == Some(Hit(|m|, "\n"))
  {
    var tail := if slash then "/>" else ">";
    var s := "<br" + spaces + tail + b;
    var e := 3 + |spaces|;
    assert s[..3] == "<br";
    OccursAtIff(s, 0, "<br");
    SpaceRunEndSpec(s, 3);
    forall k | 3 <= k < e ensures IsSpace(s[k]) {
      assert s[k] == spaces[k - 3];
    }
    assert s[e] == tail[0] && !IsSpace(s[e]);
    assert SpaceRunEnd(s, 3) == e;
    if slash {
      assert s[e + 1] == '>';
    }
  }

  /** `<br>`, `<br/>` and either with white space before the end, between texts without
      `<`, become one newline, and the text around it is kept. */
  lemma RewriteLineBreak(a: string, spaces: string, slash: bool, b: string)
    requires Lacks(a, '<') && Lacks(b, '<') && forall k :: 0 <= k < |spaces| ==> IsSpace(spaces[k])
    ensures Rewrite(LineBreak, a + "<br" + spaces + (if slash then "/>" else ">") + b) == a + "\n" + b
  {
    var m := "<br" + spaces + (if slash then "/>" else ">");
    LineBreakMatch(spaces, slash, b);
    assert a + "<br" + spaces + (if slash then "/>" else ">") + b == a + m + b;
    RewriteInContext(LineBreak, a, m, b, "\n");
  }

  /** A fixed tag between texts without `<` is deleted, and the text around it is kept. */
  lemma RewriteDelete(tag: string, a: string, b: string)
    requires TagRule(Delete(tag)) && Lacks(a, '<') && Lacks(b, '<')
    ensures Rewrite(Delete(tag), a + tag + b) == a + b
  {
    OccursAtIff(tag + b, 0, tag);
    assert (tag + b)[0..|tag|] == tag;
    RewriteInContext(Delete(tag), a, tag, b, "");
    assert a + "" == a;
  }

  /** A fixed tag at `q` is a match of its deletion rule. */
  lemma DeleteMatchAt(tag: string, s: string, q: nat)
    requires TagRule(Delete(tag)) && q + |tag| <= |s| && s[q..q + |tag|] == tag
    ensures MatchAt(Delete(tag), s, q) == Some(Hit(|tag|, ""))
  {
    OccursAtIff(s, q, tag);
  }

  /** From `p` on, text `x` without `<` and then a match `m`: `x` is copied, the match is
      replaced, and the search goes on after it. */
  lemma RewriteFromPiece(r: Rule, s: string, p: nat, x: string, m: string, text: string)
    requires TagRule(r) && p + |x| + |m| <= |s|
    requires forall k :: p <= k < p + |x| ==> s[k] == x[k - p]
    requires Lacks(x, '<')
    requires MatchAt(r, s, p + |x|) == Some(Hit(|m|, text))
    ensures RewriteFrom(r, s, p) == x + text + RewriteFrom(r, s, p + |x| + |m|)
  {
    var q := p + |x|;
    forall k | p <= k < q ensures s[k] != '<' {
      assert s[k] == x[k - p];
    }
    NoLeadWithoutAngle(r, s, p, q);
    RewriteFromAt(r, s, p, q, |m|, text);
    assert s[p..q] == x;
  }

  /** From `p` on, text `x` without `<` and then a fixed tag: `x` is kept, the tag is
      deleted, and the search goes on after it. */
  lemma RewriteDeleteStep(tag: string, s: string, p: nat, x: string, rest: string)
    requires TagRule(Delete(tag)) && p <= |s| && s[p..] == x + tag + rest
    requires Lacks(x, '<')
    ensures p + |x| + |tag| <= |s| && s[p + |x| + |tag|..] == rest
    ensures RewriteFrom(Delete(tag), s, p) == x + RewriteFrom(Delete(tag), s, p + |x| + |tag|)
  {
    SuffixParts(s, p, x, tag, rest);
    DeleteMatchAt(tag, s, p + |x|);
    RewriteFromPiece(Delete(tag), s, p, x, tag, "");
    assert x + "" == x;
  }

  /** From `p` on, text without `<` is kept. */
  lemma RewriteDeleteLast(tag: string, s: string, p: nat, x: string)
    requires TagRule(Delete(tag)) && p <= |s| && s[p..] == x && Lacks(x, '<')
    ensures RewriteFrom(Delete(tag), s, p) == x
  {
    forall k | p <= k < |s| ensures s[k] != '<' {
      assert s[k] == x[k - p];
    }
    RewriteFromAngleFree(Delete(tag), s, p);
  }

  /** From `p` on, pieces without `<` joined by a fixed tag: every occurrence of the tag is
      deleted and the pieces are kept, in order. */
  lemma {:induction false} RewriteDeleteFrom(tag: string, s: string, p: nat, pieces: seq<string>)
    requires TagRule(Delete(tag)) && p <= |s| && pieces != []
    requires forall k :: 0 <= k < |pieces| ==> Lacks(pieces[k], '<')
    requires s[p..] == Join(pieces, tag)
    ensures RewriteFrom(Delete(tag), s, p) == Concat(pieces)
    decreases |pieces|
  {
    var x, rest := pieces[0], pieces[1..];
    ConcatFront(pieces);
    if rest == [] {
      RewriteDeleteLast(tag, s, p, x);
    } else {
      JoinFront(pieces, tag);
      RewriteDeleteStep(tag, s, p, x, Join(rest, tag));
      RewriteDeleteFrom(tag, s, p + |x| + |tag|, rest);
    }
  }

  /** The `g` flag: in pieces without `<` joined by a fixed tag, every occurrence of the tag
      is deleted and the pieces are kept, in order. */
  lemma RewriteDeleteEvery(tag: string, pieces: seq<string>)
    requires TagRule(Delete(tag)) && pieces != []
    requires forall k :: 0 <= k < |pieces| ==> Lacks(pieces[k], '<')
    ensures Rewrite(Delete(tag), Join(pieces, tag)) == Concat(pieces)
  {
    var s := Join(pieces, tag);
    assert s[0..] == s;
    RewriteDeleteFrom(tag, s, 0, pieces);
  }

  /** When the rules before rule `n` find nothing in `s`, rule `n` turns it into `out`, and
      `out` has no `<` left for the later rules, the clean-up yields `out`. */
  lemma CleanByOneRule(n: nat, s: string, out: string)
    requires n < |Rules|
    requires Untouched(Rules[..n], s)
    requires Rewrite(Rules[n], s) == out && Lacks(out, '<')
    ensures Clean(s) == out
  {
    RulesAreTagRules();
    var front, back := Rules[..n], Rules[n..];
    ApplyRulesSplit(Rules, n, s);
    ApplyRulesUnchanged(front, s);
    assert ApplyRules(back, s) == ApplyRules(back[1..], out);
    NoAngleUntouched(back[1..], out);
    ApplyRulesUnchanged(back[1..], out);
  }

  /** An occurrence of a text of three or more characters fixes the first three characters there. */
  lemma OccursAtFirstThree(s: string, i: nat, pat: string)
    requires |pat| > 2 && OccursAt(s, i, pat)
    ensures i + 2 < |s| && s[i] == pat[0] && s[i + 1] == pat[1] && s[i + 2] == pat[2]
  {
    assert OccursAt(s, i + 1, pat[1..]) && OccursAt(s, i + 2, pat[1..][1..]);
    assert pat[1..][0] == pat[1] && pat[1..][1..][0] == pat[2];
  }

  /** An occurrence of a text of two or more characters fixes the first two characters there. */
  lemma OccursAtFirstTwo(s: string, i: nat, pat: string)
    requires |pat| > 1 && OccursAt(s, i, pat)
    ensures i + 1 < |s| && s[i] == pat[0] && s[i + 1] == pat[1]
  {
    assert pat[1..][0] == pat[1];
  }

  /** When every `<` in `s` differs, in one of the next two characters, from the leading
      text of each rule of `rs`, none of those rules finds anything in `s`. */
  lemma UntouchedByEarlyChars(rs: seq<Rule>, s: string)
    requires forall k :: 0 <= k < |rs| ==> TagRule(rs[k]) && |Lead(rs[k])| > 2
    requires forall k, i :: 0 <= k < |rs| && 2 < |Lead(rs[k])| && 0 <= i && i + 2 < |s| && s[i] == '<' ==>
               s[i + 1] != Lead(rs[k])[1] || s[i + 2] != Lead(rs[k])[2]
    ensures Untouched(rs, s)
  {
    forall k, i | 0 <= k < |rs| && 0 <= i < |s| ensures !OccursAt(s, i, Lead(rs[k])) {
      if OccursAt(s, i, Lead(rs[k])) {
        OccursAtFirstThree(s, i, Lead(rs[k]));
      }
    }
  }

  /** The chain starts with the three heading rules and then the bold rule. */
  lemma StrongIsFourth()
    ensures Rules[..3] == [Heading1, Heading2, Heading3] && Rules[3] == Strong
  {
  }

  /** Rules that find nothing in `t` find nothing in `t` after text without `<` either. */
  lemma UntouchedAfter(rs: seq<Rule>, a: string, t: string)
    requires forall k :: 0 <= k < |rs| ==> TagRule(rs[k])
    requires Lacks(a, '<') && Untouched(rs, t)
    ensures Untouched(rs, a + t)
  {
    forall k, i | 0 <= k < |rs| && 0 <= i < |a + t| ensures !OccursAt(a + t, i, Lead(rs[k])) {
      if i < |a| {
        assert (a + t)[i] == a[i];
      } else {
        OccursAtShift(a, t, i - |a|, Lead(rs[k]));
      }
    }
  }

  /** The whole chain on a match `m` of rule `n` between texts `a` and `b` without `<`, when
      the rules before `n` find nothing in `m + b` and the replacement has no `<`: the
      chain keeps `a` and `b` and puts the replacement in place of `m`. */
  lemma CleanInText(n: nat, a: string, m: string, b: string, out: string)
    requires n < |Rules| && TagRule(Rules[n])
    requires Lacks(a, '<') && Lacks(b, '<') && Lacks(out, '<')
    requires Untouched(Rules[..n], m + b)
    requires MatchAt(Rules[n], m + b, 0) == Some(Hit(|m|, out))
    ensures Clean(a + m + b) == a + out + b
  {
    RulesAreTagRules();
    Middle(a, m, b);
    UntouchedAfter(Rules[..n], a, m + b);
    RewriteInContext(Rules[n], a, m, b, out);
    LacksAppend(a, out, '<');
    LacksAppend(a + out, b, '<');
    CleanByOneRule(n, a + m + b, a + out + b);
  }

  /** The only `<` of `tag + b`, when `b` has none, is the tag's own first character. */
  lemma LoneAngle(tag: string, b: string, i: nat)
    requires |tag| > 0 && Lacks(tag[1..], '<') && Lacks(b, '<')
    requires 0 < i < |tag + b|
    ensures (tag + b)[i] != '<'
  {
    if i < |tag| {
      assert (tag + b)[i] == tag[1..][i - 1];
    } else {
      assert (tag + b)[i] == b[i - |tag|];
    }
  }

  /** Rule `n`, a paired tag, on one line of text without `<` between texts without `<`,
      when the rules before it find nothing there: the chain yields the Markdown form and
      keeps the text around it. */
  lemma CleanPairInText(n: nat, open: string, close: string, before: string, after: string,
                        a: string, x: string, b: string)
    requires n < |Rules| && Rules[n] == Pair(open, close, before, after)
    requires TagRule(Rules[n]) && |close| > 0 && close[0] == '<'
    requires Lacks(a, '<') && Lacks(x, '<') && OnOneLine(x, 0, |x|) && Lacks(b, '<')
    requires Lacks(before + x + after, '<')
    requires Untouched(Rules[..n], open + x + close + b)
    ensures Clean(a + open + x + close + b) == a + before + x + after + b
  {
    PairMatch(open, close, before, after, x, b);
    MiddleThree(a, open, x, close, b);
    MiddleThree(a, before, x, after, b);
    CleanInText(n, a, open + x + close, b, before + x + after);
  }

  /** The heading rules find nothing in `<strong>x</strong>` followed by text without `<`. */
  lemma StrongSkipsHeadings(x: string, b: string)
    requires Lacks(x, '<') && Lacks(b, '<')
    ensures Untouched(Rules[..3], "<strong>" + x + "</strong>" + b)
  {
    var s := "<strong>" + x + "</strong>" + b;
    var j := 8 + |x|;
    StrongIsFourth();
    var front := [Heading1, Heading2, Heading3];
    assert forall k :: 0 <= k < 3 ==> TagRule(front[k]) && |Lead(front[k])| > 2 && Lead(front[k])[1] == 'h';
    forall i | 0 <= i < |s| && i != 0 && i != j ensures s[i] != '<' {
      if j < i {
        assert s[i] == ("</strong>" + b)[i - j];
      } else if 8 <= i {
        assert s[i] == x[i - 8];
      }
    }
    UntouchedByEarlyChars(front, s);
  }

  /** `<strong>x</strong>` becomes `**x**`, wherever it stands in text without other tags. */
  lemma CleanStrong(a: string, x: string, b: string)
    requires Lacks(a, '<') && Lacks(x, '<') && OnOneLine(x, 0, |x|) && Lacks(b, '<')
    ensures Clean(a + "<strong>" + x + "</strong>" + b) == a + "**" + x + "**" + b
  {
    StrongSkipsHeadings(x, b);
    LacksAppend("**", x, '<');
    LacksAppend("**" + x, "**", '<');
    StrongIsFourth();
    CleanPairInText(3, "<strong>", "</strong>", "**", "**", a, x, b);
  }

  /** The list-item rule comes twelfth, after the seven paired rules and the four deletions. */
  lemma ListItemIsTwelfth()
    ensures Rules[..11] == [Heading1, Heading2, Heading3, Strong, Emphasis, Paragraph, Code,
                            UnorderedOpen, UnorderedClose, OrderedOpen, OrderedClose]
    ensures Rules[11] == ListItem
  {
  }

  /** No rule before the list-item rule has `l`, or `/l`, after its `<`. */
  lemma EarlierLeadsNotListItem()
    ensures forall k :: 0 <= k < |Rules[..11]| ==>
      && TagRule(Rules[..11][k]) && |Lead(Rules[..11][k])| > 2 && Lead(Rules[..11][k])[1] != 'l'
      && (Lead(Rules[..11][k])[1] == '/' ==> Lead(Rules[..11][k])[2] != 'l')
  {
    ListItemIsTwelfth();
  }

  /** The rules before the list-item rule find nothing in `<li>x</li>` followed by text without `<`. */
  lemma ListItemSkipsEarlier(x: string, b: string)
    requires Lacks(x, '<') && Lacks(b, '<')
    ensures Untouched(Rules[..11], "<li>" + x + "</li>" + b)
  {
    var s := "<li>" + x + "</li>" + b;
    var j := 4 + |x|;
    EarlierLeadsNotListItem();
    var front := Rules[..11];
    forall i | 0 <= i < |s| && i != 0 && i != j ensures s[i] != '<' {
      if j < i {
        assert s[i] == ("</li>" + b)[i - j];
      } else if 4 <= i {
        assert s[i] == x[i - 4];
      }
    }
    UntouchedByEarlyChars(front, s);
  }

  /** `<li>x</li>` becomes `- x`, wherever it stands in text without other tags. */
  lemma CleanListItem(a: string, x: string, b: string)
    requires Lacks(a, '<') && Lacks(x, '<') && OnOneLine(x, 0, |x|) && Lacks(b, '<')
    ensures Clean(a + "<li>" + x + "</li>" + b) == a + "- " + x + b
  {
    ListItemSkipsEarlier(x, b);
    LacksAppend("- ", x, '<');
    assert "- " + x + "" == "- " + x;
    ListItemIsTwelfth();
    CleanPairInText(11, "<li>", "</li>", "- ", "", a, x, b);
  }

  /** A list tag, which no earlier rule touches, is deleted by the chain wherever it stands
      in text without other tags. */
  lemma CleanDeletesTag(n: nat, tag: string, a: string, b: string)
    requires n < |Rules| && Rules[n] == Delete(tag) && TagRule(Delete(tag))
    requires Lacks(a, '<') && Lacks(b, '<')
    requires Untouched(Rules[..n], tag + b)
    ensures Clean(a + tag + b) == a + b
  {
    assert (tag + b)[0..|tag|] == tag;
    DeleteMatchAt(tag, tag + b, 0);
    CleanInText(n, a, tag, b, "");
    assert a + "" + b == a + b;
  }

  /** The four list tags are deleted wherever they stand in text without other tags. */
  lemma CleanUnorderedOpen(a: string, b: string)
    requires Lacks(a, '<') && Lacks(b, '<')
    ensures Clean(a + "<ul>" + b) == a + b
  {
    ListItemIsTwelfth();
    forall i | 0 < i < |"<ul>" + b| ensures ("<ul>" + b)[i] != '<' {
      LoneAngle("<ul>", b, i);
    }
    UntouchedByEarlyChars(Rules[..7], "<ul>" + b);
    CleanDeletesTag(7, "<ul>", a, b);
  }

  lemma CleanUnorderedClose(a: string, b: string)
    requires Lacks(a, '<') && Lacks(b, '<')
    ensures Clean(a + "</ul>" + b) == a + b
  {
    ListItemIsTwelfth();
    forall i | 0 < i < |"</ul>" + b| ensures ("</ul>" + b)[i] != '<' {
      LoneAngle("</ul>", b, i);
    }
    UntouchedByEarlyChars(Rules[..8], "</ul>" + b);
    CleanDeletesTag(8, "</ul>", a, b);
  }

  lemma CleanOrderedOpen(a: string, b: string)
    requires Lacks(a, '<') && Lacks(b, '<')
    ensures Clean(a + "<ol>" + b) == a + b
  {
    ListItemIsTwelfth();
    forall i | 0 < i < |"<ol>" + b| ensures ("<ol>" + b)[i] != '<' {
      LoneAngle("<ol>", b, i);
    }
    UntouchedByEarlyChars(Rules[..9], "<ol>" + b);
    CleanDeletesTag(9, "<ol>", a, b);
  }

  lemma CleanOrderedClose(a: string, b: string)
    requires Lacks(a, '<') && Lacks(b, '<')
    ensures Clean(a + "</ol>" + b) == a + b
  {
    ListItemIsTwelfth();
    forall i | 0 < i < |"</ol>" + b| ensures ("</ol>" + b)[i] != '<' {
      LoneAngle("</ol>", b, i);
    }
    UntouchedByEarlyChars(Rules[..10], "</ol>" + b);
    CleanDeletesTag(10, "</ol>", a, b);
  }

  /** The line-break rule comes last. */
  lemma LineBreakIsLast()
    ensures Rules[..12] == [Heading1, Heading2, Heading3, Strong, Emphasis, Paragraph, Code,
                            UnorderedOpen, UnorderedClose, OrderedOpen, OrderedClose, ListItem]
    ensures Rules[12] == LineBreak
  {
  }

  /** No rule before the line-break rule has `b` after its `<`. */
  lemma EarlierLeadsNotLineBreak()
    ensures forall k :: 0 <= k < |Rules[..12]| ==>
      TagRule(Rules[..12][k]) && |Lead(Rules[..12][k])| > 2 && Lead(Rules[..12][k])[1] != 'b'
  {
    LineBreakIsLast();
  }

  /** The rules before the line-break rule find nothing in a line-break tag followed by text
      without `<`. */
  lemma LineBreakSkipsEarlier(spaces: string, slash: bool, b: string)
    requires forall k :: 0 <= k < |spaces| ==> IsSpace(spaces[k])
    requires Lacks(b, '<')
    ensures Untouched(Rules[..12], "<br" + spaces + (if slash then "/>" else ">") + b)
  {
    var tail := if slash then "/>" else ">";
    var s := "<br" + spaces + tail + b;
    var j := 3 + |spaces| + |tail|;
    EarlierLeadsNotLineBreak();
    var front := Rules[..12];
    forall i | 0 < i < |s| ensures s[i] != '<' {
      if 3 <= i < 3 + |spaces| {
        assert s[i] == spaces[i - 3];
      } else if 3 + |spaces| <= i < j {
        assert s[i] == tail[i - 3 - |spaces|];
      } else if j <= i {
        assert s[i] == b[i - j];
      }
    }
    assert s[1] == 'b';
    UntouchedByEarlyChars(front, s);
  }

  /** `<br>`, `<br/>` and `<br />` (with any white space before the end) become a newline,
      wherever they stand in text without other tags. */
  lemma CleanLineBreak(a: string, spaces: string, slash: bool, b: string)
    requires Lacks(a, '<') && Lacks(b, '<')
    requires forall k :: 0 <= k < |spaces| ==> IsSpace(spaces[k])
    ensures Clean(a + "<br" + spaces + (if slash then "/>" else ">") + b) == a + "\n" + b
  {
    var m := "<br" + spaces + (if slash then "/>" else ">");
    LineBreakMatch(spaces, slash, b);
    LineBreakSkipsEarlier(spaces, slash, b);
    assert "<br" + spaces + (if slash then "/>" else ">") + b == m + b;
    assert a + "<br" + spaces + (if slash then "/>" else ">") + b == a + m + b;
    LineBreakIsLast();
    CleanInText(12, a, m, b, "\n");
  }

  /** A paired tag whose content crosses a line break is not a match and stays as it is. */
  lemma {:induction false} PairAcrossLinesKept(open: string, close: string, before: string, after: string, x: string, y: string)
    requires TagRule(Pair(open, close, before, after)) && Lacks(open[1..], '<')
    requires |close| > 1 && close[0] == '<' && Lacks(close[1..], '<') && close[1] != open[1]
    requires Lacks(x, '<') && Lacks(y, '<')
    ensures Rewrite(Pair(open, close, before, after), open + x + "\n" + y + close) == open + x + "\n" + y + close
  {
    var r, s := Pair(open, close, before, after), open + x + "\n" + y + close;
    var lf := |open| + |x|;
    var j := lf + 1 + |y|;
    assert s[j..j + |close|] == close;
    forall k | |open| <= k < j ensures !At(s, k, close) {
      if k < lf {
        assert s[k] == x[k - |open|];
      } else if k > lf {
        assert s[k] == y[k - lf - 1];
      }
      OccursAtIff(s, k, close);
    }
    IndexOfAt(s, close, |open|, j);
    assert s[lf] == '\n';
    assert MatchAt(r, s, 0).None?;
    forall k | 0 < k < |s| ensures !OccursAt(s, k, open) {
      if k < |open| {
        assert s[k] == open[1..][k - 1];
      } else if k < lf {
        assert s[k] == x[k - |open|];
      } else if lf < k < j {
        assert s[k] == y[k - lf - 1];
      } else if k == j {
        if OccursAt(s, k, open) {
          OccursAtFirstTwo(s, k, open);
        }
      } else if j < k {
        assert s[k] == close[1..][k - j - 1];
      }
    }
    RewriteFromUnchanged(r, s, 1);
    assert s == [s[0]] + s[1..];
  }
}
