/**
 * `parseFunctionCalls`: scanning model output for `[FUNCTION_CALL] ... [/FUNCTION_CALL]`
 * blocks with the global, dot-all, non-greedy regular expression, decoding each trimmed
 * payload, and cutting every matched block out of the visible text.
 */
module FunctionCalls {
  import opened Wrappers
  import opened Strings
  import opened DataModel

  const OpenTag: string := "[FUNCTION_CALL]"
  const CloseTag: string := "[/FUNCTION_CALL]"

  /** One match of the regular expression: the opening tag at `start`, the closing tag at `close`. */
  datatype Block = Block(start: nat, close: nat) {
    function PayloadStart(): nat { start + |OpenTag| }
    function End(): nat { close + |CloseTag| }
  }

  /** The regular expression can match at `i`: an opening tag stands there and, since the
      `s` flag lets `.` cross line breaks, a closing tag anywhere after it will do. */
  ghost predicate MatchesAt(s: string, i: int) {
    At(s, i, OpenTag) && exists j :: i + |OpenTag| <= j && At(s, j, CloseTag)
  }

  /** A block of `s`: its opening tag first and the first closing tag after it last. */
  ghost predicate WellFormed(s: string, b: Block) {
    && At(s, b.start, OpenTag)
    && b.PayloadStart() <= b.close
    && At(s, b.close, CloseTag)
    && (forall j :: b.PayloadStart() <= j < b.close ==> !At(s, j, CloseTag))
  }

  /** `b` is the match the regular expression finds when it searches from `p`: the leftmost
      start position at or after `p`, extended only to the first closing tag (non-greedy). */
  ghost predicate IsLeftmostMatch(s: string, p: nat, b: Block) {
    p <= b.start && WellFormed(s, b) && forall i :: p <= i < b.start ==> !MatchesAt(s, i)
  }

  /** `regex.exec(s)` with `lastIndex == p`: the next opening tag, closed by the first
      closing tag after it. */
  function NextBlock(s: string, p: nat): (r: Option<Block>)
    ensures r.Some? ==> p <= r.value.start && r.value.PayloadStart() <= r.value.close && r.value.End() <= |s|
  {
    match IndexOf(s, OpenTag, p)
    case None => None
    case Some(i) =>
      match IndexOf(s, CloseTag, i + |OpenTag|)
      case None => None
      case Some(j) => Some(Block(i, j))
  }

  /** The block found opens with the opening tag and ends at the first closing tag after it. */
  lemma NextBlockWellFormed(s: string, p: nat)
    requires NextBlock(s, p).Some?
    ensures WellFormed(s, NextBlock(s, p).value)
  {
    var i := IndexOf(s, OpenTag, p).value;
    IndexOfFirst(s, OpenTag, p);
    IndexOfFirst(s, CloseTag, i + |OpenTag|);
  }

  /** The search finds exactly the regular expression's match; when it finds none there is
      no match anywhere after `p`, since an opening tag with no closing tag after it leaves
      no closing tag after any later opening tag either. */
  lemma NextBlockIsLeftmostMatch(s: string, p: nat)
    ensures NextBlock(s, p).Some? ==> IsLeftmostMatch(s, p, NextBlock(s, p).value)
    ensures NextBlock(s, p).None? ==> forall i :: p <= i ==> !MatchesAt(s, i)
  {
    IndexOfFirst(s, OpenTag, p);
    match IndexOf(s, OpenTag, p)
    case None =>
    case Some(i) =>
      IndexOfFirst(s, CloseTag, i + |OpenTag|);
      match IndexOf(s, CloseTag, i + |OpenTag|)
      case None =>
        forall k | p <= k && At(s, k, OpenTag) ensures !MatchesAt(s, k) {
          assert i <= k;
        }
      case Some(j) =>
        NextBlockWellFormed(s, p);
        assert forall k :: p <= k < i ==> !MatchesAt(s, k);
  }

  /** Every match of the global regular expression, searching from `p`, each inside the text. */
  function Blocks(s: string, p: nat): (bs: seq<Block>)
    requires p <= |s|
    ensures forall k :: 0 <= k < |bs| ==> bs[k].PayloadStart() <= bs[k].close && bs[k].End() <= |s|
    decreases |s| - p
  {
    match NextBlock(s, p)
    case None => []
    case Some(b) => [b] + Blocks(s, b.End())
  }

  /** The blocks lie after `p`, in order and without overlap. */
  ghost predicate OrderedFrom(bs: seq<Block>, p: nat) {
    && (forall k :: 0 <= k < |bs| ==> p <= bs[k].start)
    && (forall i, j :: 0 <= i < j < |bs| ==> bs[i].End() <= bs[j].start)
  }

  lemma OrderedCons(b: Block, rest: seq<Block>, p: nat)
    requires p <= b.start && b.start <= b.End() && OrderedFrom(rest, b.End())
    ensures OrderedFrom([b] + rest, p)
  {
    var bs := [b] + rest;
    assert forall k :: 1 <= k < |bs| ==> bs[k] == rest[k - 1];
  }

  lemma {:induction false} BlocksOrdered(s: string, p: nat)
    requires p <= |s|
    ensures OrderedFrom(Blocks(s, p), p)
    decreases |s| - p
  {
    match NextBlock(s, p)
    case None =>
    case Some(b) =>
      BlocksOrdered(s, b.End());
      OrderedCons(b, Blocks(s, b.End()), p);
  }

  /** The matches of `s`, from the start of the text. */
  function AllBlocks(s: string): seq<Block> { Blocks(s, 0) }

  /** Each block found is well formed: it opens with the opening tag and ends at the first
      closing tag after it. */
  lemma {:induction false} BlocksWellFormed(s: string, p: nat)
    requires p <= |s|
    ensures forall k :: 0 <= k < |Blocks(s, p)| ==> WellFormed(s, Blocks(s, p)[k])
    decreases |s| - p
  {
    match NextBlock(s, p)
    case None =>
    case Some(b) =>
      NextBlockWellFormed(s, p);
      BlocksWellFormed(s, b.End());
      var bs, rest := Blocks(s, p), Blocks(s, b.End());
      assert forall k :: 1 <= k < |bs| ==> bs[k] == rest[k - 1];
  }

  /** The text of the capture group of block `b`. */
  function Payload(s: string, b: Block): string
    requires b.PayloadStart() <= b.close <= |s|
  {
    s[b.PayloadStart()..b.close]
  }

  /** No payload contains a closing tag: each block ends at the first one after its opening tag. */
  lemma NoCloseTagInPayload(s: string, k: nat)
    requires k < |AllBlocks(s)|
    ensures !Contains(Payload(s, AllBlocks(s)[k]), CloseTag)
  {
    BlocksWellFormed(s, 0);
    var b := AllBlocks(s)[k];
    var pl := Payload(s, b);
    if Contains(pl, CloseTag) {
      IndexOfFirst(pl, CloseTag, 0);
      var i := IndexOf(pl, CloseTag, 0).value;
      AtInSlice(s, b.PayloadStart(), b.close, i, CloseTag);
    }
  }

  /** What one payload contributes: `JSON.parse` of the trimmed payload when it succeeds,
      nothing when it throws (the error is only logged). */
  function Decoded(payload: string, decode: string -> Option<Call>): seq<Call>
  {
    var d := decode(Trim(payload));
    if d.Some? then [d.value] else []
  }

  /** The calls the blocks yield, in order. */
  function CallsOf(s: string, bs: seq<Block>, decode: string -> Option<Call>): seq<Call>
    requires forall k :: 0 <= k < |bs| ==> bs[k].PayloadStart() <= bs[k].close <= |s|
  {
    if bs == [] then [] else Decoded(Payload(s, bs[0]), decode) + CallsOf(s, bs[1..], decode)
  }

  /** `functionCalls` of `parseFunctionCalls`: the decoded payloads of every match. */
  function ExtractedCalls(s: string, decode: string -> Option<Call>): seq<Call>
  {
    CallsOf(s, AllBlocks(s), decode)
  }

  /** At most one call per block. */
  lemma {:induction false} CallsOfAtMost(s: string, bs: seq<Block>, decode: string -> Option<Call>)
    requires forall k :: 0 <= k < |bs| ==> bs[k].PayloadStart() <= bs[k].close <= |s|
    ensures |CallsOf(s, bs, decode)| <= |bs|
  {
    if bs != [] {
      CallsOfAtMost(s, bs[1..], decode);
    }
  }

  /** Exactly one call per block when every payload decodes: block `k` yields call `k`. */
  lemma {:induction false} CallsOfAll(s: string, bs: seq<Block>, decode: string -> Option<Call>)
    requires forall k :: 0 <= k < |bs| ==> bs[k].PayloadStart() <= bs[k].close <= |s|
    requires forall k :: 0 <= k < |bs| ==> decode(Trim(Payload(s, bs[k]))).Some?
    ensures |CallsOf(s, bs, decode)| == |bs|
    ensures forall k :: 0 <= k < |bs| ==> CallsOf(s, bs, decode)[k] == decode(Trim(Payload(s, bs[k]))).value
  {
    if bs != [] {
      var rest := bs[1..];
      assert forall k :: 0 <= k < |rest| ==> rest[k] == bs[k + 1];
      CallsOfAll(s, rest, decode);
      var head := Decoded(Payload(s, bs[0]), decode);
      assert head == [decode(Trim(Payload(s, bs[0]))).value];
      var all := CallsOf(s, bs, decode);
      assert all == head + CallsOf(s, rest, decode);
      forall k | 0 <= k < |bs| ensures all[k] == decode(Trim(Payload(s, bs[k]))).value {
        if k > 0 {
          assert all[k] == CallsOf(s, rest, decode)[k - 1];
        }
      }
    }
  }

  /** The calls of a text never outnumber its blocks; when every block decodes there is one
      call per block, in the blocks' order. */
  lemma CallsPerBlock(s: string, decode: string -> Option<Call>)
    ensures |ExtractedCalls(s, decode)| <= |AllBlocks(s)|
    ensures (forall k :: 0 <= k < |AllBlocks(s)| ==> decode(Trim(Payload(s, AllBlocks(s)[k]))).Some?) ==>
      && |ExtractedCalls(s, decode)| == |AllBlocks(s)|
      && forall k :: 0 <= k < |AllBlocks(s)| ==>
           ExtractedCalls(s, decode)[k] == decode(Trim(Payload(s, AllBlocks(s)[k]))).value
  {
    var bs := AllBlocks(s);
    CallsOfAtMost(s, bs, decode);
    if forall k :: 0 <= k < |bs| ==> decode(Trim(Payload(s, bs[k]))).Some? {
      CallsOfAll(s, bs, decode);
    }
  }

  /** The calls the `exec` loop collects once `lastIndex` is `p`. */
  function CallsFrom(s: string, p: nat, decode: string -> Option<Call>): seq<Call>
    requires p <= |s|
    decreases |s| - p
  {
    match NextBlock(s, p)
    case None => []
    case Some(b) => Decoded(Payload(s, b), decode) + CallsFrom(s, b.End(), decode)
  }

  /** Searching on from `p` collects the calls of the blocks found from `p` on. */
  lemma {:induction false} CallsFromBlocks(s: string, p: nat, decode: string -> Option<Call>)
    requires p <= |s|
    ensures CallsFrom(s, p, decode) == CallsOf(s, Blocks(s, p), decode)
    decreases |s| - p
  {
    match NextBlock(s, p)
    case None =>
    case Some(b) =>
      CallsFromBlocks(s, b.End(), decode);
      assert Blocks(s, p)[1..] == Blocks(s, b.End());
  }

  /** The calls of the whole text are those collected by searching from its start. */
  lemma ExtractedFromStart(s: string, decode: string -> Option<Call>)
    ensures ExtractedCalls(s, decode) == CallsFrom(s, 0, decode)
  {
    CallsFromBlocks(s, 0, decode);
  }

  /** One more block found: its call, if its payload decodes, joins those collected so far. */
  lemma CollectStep(s: string, p: nat, decode: string -> Option<Call>, acc: seq<Call>)
    requires p <= |s| && NextBlock(s, p).Some?
    ensures var b := NextBlock(s, p).value;
      acc + CallsFrom(s, p, decode) == (acc + Decoded(s[b.PayloadStart()..b.close], decode)) + CallsFrom(s, b.End(), decode)
  {
    CallsFromStep(s, p, decode);
  }

  /** One turn of the `exec` loop: the block found contributes its call, then the search
      resumes after its closing tag. */
  lemma CallsFromStep(s: string, p: nat, decode: string -> Option<Call>)
    requires p <= |s| && NextBlock(s, p).Some?
    ensures CallsFrom(s, p, decode)
      == Decoded(Payload(s, NextBlock(s, p).value), decode) + CallsFrom(s, NextBlock(s, p).value.End(), decode)
  {
  }

  /** Once the search finds nothing, no more calls are collected. */
  lemma CallsFromDone(s: string, p: nat, decode: string -> Option<Call>)
    requires p <= |s| && NextBlock(s, p).None?
    ensures CallsFrom(s, p, decode) == []
  {
  }

  /** The text left when the blocks found from `p` on are replaced by `''`. */
  function Stripped(s: string, p: nat): string
    requires p <= |s|
    decreases |s| - p
  {
    match NextBlock(s, p)
    case None => s[p..]
    case Some(b) => s[p..b.start] + Stripped(s, b.End())
  }

  /** `response` of `parseFunctionCalls`. */
  function VisibleText(s: string): string { Trim(Stripped(s, 0)) }

  /** A text without an opening tag yields no call and is shown trimmed and otherwise unchanged. */
  lemma NoOpenTag(s: string, decode: string -> Option<Call>)
    requires !Contains(s, OpenTag)
    ensures ExtractedCalls(s, decode) == []
    ensures VisibleText(s) == Trim(s)
  {
    assert NextBlock(s, 0).None?;
    assert s[0..] == s;
  }

  /** The number of characters the blocks occupy. */
  function BlockChars(bs: seq<Block>): int
  {
    if bs == [] then 0 else (bs[0].End() - bs[0].start) + BlockChars(bs[1..])
  }

  /** Cutting the blocks out removes exactly their characters: what is kept and what is
      cut add up to the text searched. */
  lemma {:induction false} StrippedLength(s: string, p: nat)
    requires p <= |s|
    ensures |Stripped(s, p)| + BlockChars(Blocks(s, p)) == |s| - p
    decreases |s| - p
  {
    match NextBlock(s, p)
    case None =>
    case Some(b) =>
      StrippedLength(s, b.End());
      assert Blocks(s, p)[1..] == Blocks(s, b.End());
  }

  /** An opening tag with no closing tag after it is not a match and stays in the visible
      text: the visible text is not free of delimiter tags in general. */
  lemma UnclosedTagStaysVisible()
    ensures ExtractedCalls(OpenTag, (t: string) => None) == []
    ensures VisibleText(OpenTag) == OpenTag
  {
    assert NextBlock(OpenTag, 0).None?;
    assert OpenTag[0..] == OpenTag;
    TrimOfTrimmed(OpenTag);
  }

  /** `parseFunctionCalls(responseText)`: the `exec` loop collects the decoded payloads, then
      the global `replace` removes the blocks and the result is trimmed. */
  method ParseFunctionCalls(responseText: string, decode: string -> Option<Call>)
    returns (response: string, functionCalls: seq<Call>)
    ensures functionCalls == ExtractedCalls(responseText, decode)
    ensures response == VisibleText(responseText)
  {
    functionCalls := CollectCalls(responseText, decode);
    ExtractedFromStart(responseText, decode);
    response := Trim(Stripped(responseText, 0));
  }

  /** The `while ((match = regex.exec(s)) !== null)` loop of `parseFunctionCalls`. */
  method CollectCalls(s: string, decode: string -> Option<Call>) returns (functionCalls: seq<Call>)
    ensures functionCalls == CallsFrom(s, 0, decode)
  {
    functionCalls := [];
    var lastIndex: nat := 0;
    var m := NextBlock(s, lastIndex);
    ghost var all := CallsFrom(s, 0, decode);
    while m.Some?
      invariant lastIndex <= |s|
      invariant m == NextBlock(s, lastIndex)
      invariant all == functionCalls + CallsFrom(s, lastIndex, decode)
      decreases |s| - lastIndex
    {
      var b := m.value;
      var payload := s[b.PayloadStart()..b.close];
      var found := Decoded(payload, decode);
      CollectStep(s, lastIndex, decode, functionCalls);
      functionCalls := functionCalls + found;
      lastIndex := b.End();
      m := NextBlock(s, lastIndex);
    }
    CallsFromDone(s, lastIndex, decode);
  }
}
