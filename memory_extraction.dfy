/**
 * What `addToMemory` and `extractAndSaveMemory` do to the memory store, as functions of the
 * store before the call: the `remember` commands, the five keyword rules that record the
 * whole message as a fact, the three patterns that set the `name`, `job` and `location`
 * preferences, and the topic every other message leaves behind.
 */
module MemoryExtraction {
  import opened Wrappers
  import opened Strings
  import opened DataModel

  /** The `data` argument of `addToMemory`, by its `type`: a fact's text, or the object
      whose properties are assigned to the preferences. */
  datatype MemoryEntry = FactEntry(text: string) | PreferenceEntry(props: Prefs)

  /** `addToMemory(type, data)`, with `currentChatId` and the time of the call. */
  function AddedToMemory(m: Memory, e: MemoryEntry, chatId: Option<string>, now: Time): (r: Memory)
    ensures r.previousTopics == m.previousTopics
    ensures e.FactEntry? ==> r == m.(facts := m.facts + [Fact(e.text, now, chatId)])
    ensures e.PreferenceEntry? ==> r.facts == m.facts
  {
    match e
    case FactEntry(text) => m.(facts := m.facts + [Fact(text, now, chatId)])
    case PreferenceEntry(props) => m.(userPreferences := AssignAll(m.userPreferences, props))
  }

  // ---------------------------------------------------------------- the remember commands

  const RememberThat := "remember that "
  const RememberColon := "remember: "

  /** The message starts, in any case, with one of the two commands. */
  predicate IsRememberCommand(msg: string) {
    StartsWith(Lower(msg), RememberThat) || StartsWith(Lower(msg), RememberColon)
  }

  /** What a command records: the message from index 14 for the first form, 10 for the
      second. */
  function RememberedText(msg: string): string {
    Drop(msg, if StartsWith(Lower(msg), RememberThat) then 14 else 10)
  }

  // ---------------------------------------------------------------- patterns

  /** The character class that follows a phrase: `\w` or `[^.!?]`. */
  datatype CharClass = Word | NotSentenceEnd

  /** Membership in the class; `\w` is the ASCII letters, digits and `_`. */
  predicate InClass(cls: CharClass, c: char) {
    match cls
    case Word => 'a' <= c <= 'z' || 'A' <= c <= 'Z' || '0' <= c <= '9' || c == '_'
    case NotSentenceEnd => c != '.' && c != '!' && c != '?'
  }

  /** A phrase, then at least one character of a class, the whole followed greedily: a
      regular expression `/phrase (cls+)/i`. The phrase is written in lower case. */
  datatype Pattern = Pattern(phrase: string, cls: CharClass)

  /** The pattern matches at index `i`: the phrase is there in any case, and a character of
      the class follows it. */
  predicate MatchesAt(s: string, i: nat, p: Pattern) {
    At(Lower(s), i, p.phrase) && i + |p.phrase| < |s| && InClass(p.cls, s[i + |p.phrase|])
  }

  /** The end of the run of characters of the class that starts at `j`. */
  function RunEnd(s: string, j: nat, cls: CharClass): (r: nat)
    requires j <= |s|
    ensures j <= r <= |s|
    decreases |s| - j
  {
    if j < |s| && InClass(cls, s[j]) then RunEnd(s, j + 1, cls) else j
  }

  lemma {:induction false} RunEndSpec(s: string, j: nat, cls: CharClass)
    requires j <= |s|
    ensures forall k :: j <= k < RunEnd(s, j, cls) ==> InClass(cls, s[k])
    ensures RunEnd(s, j, cls) == |s| || !InClass(cls, s[RunEnd(s, j, cls)])
    decreases |s| - j
  {
    if j < |s| && InClass(cls, s[j]) {
      RunEndSpec(s, j + 1, cls);
    }
  }

  /** Where the leftmost match at or after `from` starts. */
  function MatchStart(s: string, p: Pattern, from: nat): (r: Option<nat>)
    ensures r.Some? ==> from <= r.value && r.value + |p.phrase| < |s|
    decreases |s| - from
  {
    if from + |p.phrase| >= |s| then None
    else if MatchesAt(s, from, p) then Some(from)
    else MatchStart(s, p, from + 1)
  }

  /** The leftmost match is a match and there is none before it; when there is none, the
      pattern matches nowhere. */
  lemma {:induction false} MatchStartSpec(s: string, p: Pattern, from: nat)
    ensures MatchStart(s, p, from).Some? ==> MatchesAt(s, MatchStart(s, p, from).value, p)
    ensures MatchStart(s, p, from).Some? ==>
      forall k :: from <= k < MatchStart(s, p, from).value ==> !MatchesAt(s, k, p)
    ensures MatchStart(s, p, from).None? ==> forall k :: from <= k ==> !MatchesAt(s, k, p)
    decreases |s| - from
  {
    if from + |p.phrase| < |s| && !MatchesAt(s, from, p) {
      MatchStartSpec(s, p, from + 1);
    }
  }

  /** `s.match(pattern)[1]`, or `None` for a `null` match. */
  function Capture(s: string, p: Pattern): Option<string>
  {
    match MatchStart(s, p, 0)
    case None => None
    case Some(i) => Some(s[i + |p.phrase|..RunEnd(s, i + |p.phrase|, p.cls)])
  }

  /** A capture is the whole run of class characters right after the leftmost occurrence of
      the phrase that has one: it is not empty, the character after it (if any) is outside
      the class, and the phrase stands right before it. With no capture, no occurrence of
      the phrase is followed by a class character. */
  lemma CaptureSpec(s: string, p: Pattern)
    ensures Capture(s, p).Some? ==>
      exists i: nat :: && MatchesAt(s, i, p)
                       && (forall k :: 0 <= k < i ==> !MatchesAt(s, k, p))
                       && Capture(s, p).value == s[i + |p.phrase|..RunEnd(s, i + |p.phrase|, p.cls)]
                       && (RunEnd(s, i + |p.phrase|, p.cls) == |s| || !InClass(p.cls, s[RunEnd(s, i + |p.phrase|, p.cls)]))
    ensures Capture(s, p).Some? ==>
      && Capture(s, p).value != []
      && forall k :: 0 <= k < |Capture(s, p).value| ==> InClass(p.cls, Capture(s, p).value[k])
    ensures Capture(s, p).None? <==> forall i: nat :: !MatchesAt(s, i, p)
  {
    MatchStartSpec(s, p, 0);
    if MatchStart(s, p, 0).Some? {
      CaptureRun(s, p, MatchStart(s, p, 0).value);
    }
  }

  /** The run captured after a match is not empty and lies in the class. */
  lemma CaptureRun(s: string, p: Pattern, i: nat)
    requires MatchesAt(s, i, p)
    ensures var j := i + |p.phrase|;
      var v := s[j..RunEnd(s, j, p.cls)];
      v != [] && forall k :: 0 <= k < |v| ==> InClass(p.cls, v[k])
    ensures var e := RunEnd(s, i + |p.phrase|, p.cls); e == |s| || !InClass(p.cls, s[e])
  {
    var j := i + |p.phrase|;
    RunEndSpec(s, j, p.cls);
    var v := s[j..RunEnd(s, j, p.cls)];
    forall k | 0 <= k < |v| ensures InClass(p.cls, v[k]) {
      assert v[k] == s[j + k];
    }
  }

  /** A match means the phrase occurs, so a gate that asks for a prefix of the phrase is
      passed. */
  lemma CaptureImpliesGate(s: string, p: Pattern, gate: string)
    requires StartsWith(p.phrase, gate)
    requires Capture(s, p).Some?
    ensures Contains(Lower(s), gate)
  {
    MatchStartSpec(s, p, 0);
    var i := MatchStart(s, p, 0).value;
    assert Lower(s)[i..i + |gate|] == Lower(s)[i..i + |p.phrase|][..|gate|];
    ContainsAt(Lower(s), gate, i);
  }

  /** `a || b`. */
  function OrElse(a: Option<string>, b: Option<string>): Option<string> {
    if a.Some? then a else b
  }

  function Trimmed(v: Option<string>): Option<string> {
    if v.Some? then Some(Trim(v.value)) else None
  }

  const NamePattern := Pattern("my name is ", Word)
  const WorkAtPattern := Pattern("i work at ", NotSentenceEnd)
  const AmAPattern := Pattern("i am a ", NotSentenceEnd)
  const JobIsPattern := Pattern("my job is ", NotSentenceEnd)
  const LiveInPattern := Pattern("i live in ", NotSentenceEnd)
  const FromPattern := Pattern("i am from ", NotSentenceEnd)

  /** The name the message gives, if the `my name is` rule sets one. */
  function NameOf(msg: string): Option<string> {
    if Contains(Lower(msg), "my name is") then Capture(msg, NamePattern) else None
  }

  /** The job the message gives, if the job rule sets one. */
  function JobOf(msg: string): Option<string> {
    var lower := Lower(msg);
    if Contains(lower, "i work at") || Contains(lower, "i am a ") || Contains(lower, "my job is") then
      Trimmed(OrElse(OrElse(Capture(msg, WorkAtPattern), Capture(msg, AmAPattern)), Capture(msg, JobIsPattern)))
    else None
  }

  /** The location the message gives, if the location rule sets one. */
  function LocationOf(msg: string): Option<string> {
    var lower := Lower(msg);
    if Contains(lower, "i live in") || Contains(lower, "i am from") then
      Trimmed(OrElse(Capture(msg, LiveInPattern), Capture(msg, FromPattern)))
    else None
  }

  /** The one-property object assigned for a value the rule found, if any. */
  function PrefUpdate(key: string, v: Option<string>): Prefs {
    if v.Some? then [Pref(key, v.value)] else []
  }

  /** The preference assignments of a message, in the order the rules run. */
  function PrefUpdates(msg: string): Prefs {
    PrefUpdate("name", NameOf(msg)) + PrefUpdate("job", JobOf(msg)) + PrefUpdate("location", LocationOf(msg))
  }

  // ---------------------------------------------------------------- the fact rules

  /** `my …` with ` is ` or ` are ` in it. */
  predicate StatesOwnThing(lower: string) {
    StartsWith(lower, "my ") && (Contains(lower, " is ") || Contains(lower, " are "))
  }

  predicate StatesPossession(lower: string) {
    Contains(lower, "i have") || Contains(lower, "i own")
  }

  predicate StatesLiking(lower: string) {
    Contains(lower, "i like") || Contains(lower, "i love") || Contains(lower, "i prefer")
  }

  predicate StatesSkill(lower: string) {
    Contains(lower, "i know how to") || Contains(lower, "i can") || Contains(lower, "i have experience")
  }

  predicate StatesProject(lower: string) {
    Contains(lower, "i am working on") || Contains(lower, "my goal is") || Contains(lower, "i am building")
  }

  function Count(b: bool): nat {
    if b then 1 else 0
  }

  /** How many of the five fact rules fire on a lower-cased message. */
  function RulesFired(lower: string): nat {
    Count(StatesOwnThing(lower)) + Count(StatesPossession(lower)) + Count(StatesLiking(lower))
    + Count(StatesSkill(lower)) + Count(StatesProject(lower))
  }

  /** `n` copies of the fact that records the whole message. */
  function Copies(f: Fact, n: nat): (r: seq<Fact>)
    ensures |r| == n && forall k :: 0 <= k < n ==> r[k] == f
  {
    seq(n, _ => f)
  }

  // ---------------------------------------------------------------- the whole extraction

  /** The store after `extractAndSaveMemory(msg, …)`: a command records its fact and nothing
      else; any other message records itself once per fact rule that fires, assigns the
      preferences its patterns find, and leaves its first 50 characters as a topic. */
  function Extracted(m: Memory, msg: string, chatId: Option<string>, now: Time): Memory {
    if IsRememberCommand(msg) then AddedToMemory(m, FactEntry(RememberedText(msg)), chatId, now)
    else Memory(
      AssignAll(m.userPreferences, PrefUpdates(msg)),
      m.facts + Copies(Fact(msg, now, chatId), RulesFired(Lower(msg))),
      m.previousTopics + [Topic(Take(msg, 50), now)])
  }

  /** A command records one fact, the message without the command's own characters, and
      changes neither the preferences nor the topics. */
  lemma RememberCommand(m: Memory, msg: string, chatId: Option<string>, now: Time)
    requires IsRememberCommand(msg)
    ensures Extracted(m, msg, chatId, now).facts == m.facts + [Fact(RememberedText(msg), now, chatId)]
    ensures Extracted(m, msg, chatId, now).userPreferences == m.userPreferences
    ensures Extracted(m, msg, chatId, now).previousTopics == m.previousTopics
    ensures StartsWith(Lower(msg), RememberThat) ==>
      && msg == msg[..14] + RememberedText(msg)
      && Lower(msg[..14]) == RememberThat
    ensures !StartsWith(Lower(msg), RememberThat) ==>
      && msg == msg[..10] + RememberedText(msg)
      && Lower(msg[..10]) == RememberColon
  {
    LowerSlice(msg, 0, if StartsWith(Lower(msg), RememberThat) then 14 else 10);
  }

  /** Any other message adds exactly one topic, its first 50 characters. */
  lemma TopicRecorded(m: Memory, msg: string, chatId: Option<string>, now: Time)
    requires !IsRememberCommand(msg)
    ensures Extracted(m, msg, chatId, now).previousTopics == m.previousTopics + [Topic(Take(msg, 50), now)]
    ensures |Take(msg, 50)| <= 50 && StartsWith(msg, Take(msg, 50))
    ensures |msg| <= 50 ==> Take(msg, 50) == msg
  {
  }

  /** The fact log only grows: the old facts stay as they were, and each new entry is the
      whole message, one per rule that fired, so at most five are added; none is added
      exactly when no rule's keywords occur. */
  lemma FactsRecorded(m: Memory, msg: string, chatId: Option<string>, now: Time)
    requires !IsRememberCommand(msg)
    ensures var r := Extracted(m, msg, chatId, now);
      && |r.facts| == |m.facts| + RulesFired(Lower(msg))
      && |m.facts| <= |r.facts| <= |m.facts| + 5
      && r.facts[..|m.facts|] == m.facts
      && (forall k :: |m.facts| <= k < |r.facts| ==> r.facts[k] == Fact(msg, now, chatId))
    ensures var lower := Lower(msg);
      |Extracted(m, msg, chatId, now).facts| == |m.facts| <==>
        !StatesOwnThing(lower) && !StatesPossession(lower) && !StatesLiking(lower)
        && !StatesSkill(lower) && !StatesProject(lower)
  {
    var r := Extracted(m, msg, chatId, now);
    var added := Copies(Fact(msg, now, chatId), RulesFired(Lower(msg)));
    assert r.facts == m.facts + added;
    assert r.facts[..|m.facts|] == m.facts;
    forall k | |m.facts| <= k < |r.facts| ensures r.facts[k] == Fact(msg, now, chatId) {
      assert r.facts[k] == added[k - |m.facts|];
    }
  }

  /** `Object.assign` of the rules' objects: a preference takes the last value the rules
      found for it, or keeps its old value when they found none. */
  lemma PreferencesAfter(m: Memory, msg: string, chatId: Option<string>, now: Time, key: string)
    requires !IsRememberCommand(msg)
    ensures var last := LastValue(PrefUpdates(msg), key);
      Lookup(Extracted(m, msg, chatId, now).userPreferences, key)
        == if last.Some? then last else Lookup(m.userPreferences, key)
  {
    AssignAllLookup(m.userPreferences, PrefUpdates(msg), key);
  }

  /** The last of the rules' values for `key`: the value of the one rule that sets it. */
  lemma UpdatesLastValue(msg: string, key: string)
    ensures LastValue(PrefUpdates(msg), key) ==
      if key == "location" then LocationOf(msg)
      else if key == "job" then JobOf(msg)
      else if key == "name" then NameOf(msg)
      else None
  {
    LastOfThree(NameOf(msg), JobOf(msg), LocationOf(msg), key);
  }

  /** The last value for `key` among one-or-no updates of `name`, `job` and `location`. */
  lemma LastOfThree(name: Option<string>, job: Option<string>, location: Option<string>, key: string)
    ensures LastValue(PrefUpdate("name", name) + PrefUpdate("job", job) + PrefUpdate("location", location), key) ==
      if key == "location" then location
      else if key == "job" then job
      else if key == "name" then name
      else None
  {
    var a, b, c := PrefUpdate("name", name), PrefUpdate("job", job), PrefUpdate("location", location);
    LastValueAppend(a + b, c, key);
    LastValueAppend(a, b, key);
    LastValueAppend([], a, key);
    assert [] + a == a;
  }

  /** The `name` preference takes the value the name rule found, or keeps its old value. */
  lemma NameAssigned(m: Memory, msg: string, chatId: Option<string>, now: Time)
    requires !IsRememberCommand(msg)
    ensures Lookup(Extracted(m, msg, chatId, now).userPreferences, "name")
      == if NameOf(msg).Some? then NameOf(msg) else Lookup(m.userPreferences, "name")
  {
    PreferencesAfter(m, msg, chatId, now, "name");
    UpdatesLastValue(msg, "name");
  }

  /** The `job` preference takes the value the job rule found, or keeps its old value. */
  lemma JobAssigned(m: Memory, msg: string, chatId: Option<string>, now: Time)
    requires !IsRememberCommand(msg)
    ensures Lookup(Extracted(m, msg, chatId, now).userPreferences, "job")
      == if JobOf(msg).Some? then JobOf(msg) else Lookup(m.userPreferences, "job")
  {
    PreferencesAfter(m, msg, chatId, now, "job");
    UpdatesLastValue(msg, "job");
  }

  /** The `location` preference takes the value the location rule found, or keeps its old value. */
  lemma LocationAssigned(m: Memory, msg: string, chatId: Option<string>, now: Time)
    requires !IsRememberCommand(msg)
    ensures Lookup(Extracted(m, msg, chatId, now).userPreferences, "location")
      == if LocationOf(msg).Some? then LocationOf(msg) else Lookup(m.userPreferences, "location")
  {
    PreferencesAfter(m, msg, chatId, now, "location");
    UpdatesLastValue(msg, "location");
  }

  /** Every preference other than `name`, `job` and `location` is untouched. */
  lemma OtherPreferencesKept(m: Memory, msg: string, chatId: Option<string>, now: Time, key: string)
    requires !IsRememberCommand(msg) && key != "name" && key != "job" && key != "location"
    ensures Lookup(Extracted(m, msg, chatId, now).userPreferences, key) == Lookup(m.userPreferences, key)
  {
    PreferencesAfter(m, msg, chatId, now, key);
    UpdatesLastValue(msg, key);
  }

  /** All four cases together: each of `name`, `job` and `location` takes the value its rule
      found, or keeps its old value when the rule found none; every other preference is
      untouched. */
  lemma PreferencesAssigned(m: Memory, msg: string, chatId: Option<string>, now: Time, key: string)
    requires !IsRememberCommand(msg)
    ensures var prefs := Extracted(m, msg, chatId, now).userPreferences;
      var found := if key == "name" then NameOf(msg) else if key == "job" then JobOf(msg)
                   else if key == "location" then LocationOf(msg) else None;
      Lookup(prefs, key) == if found.Some? then found else Lookup(m.userPreferences, key)
  {
    if key == "name" {
      NameAssigned(m, msg, chatId, now);
    } else if key == "job" {
      JobAssigned(m, msg, chatId, now);
    } else if key == "location" {
      LocationAssigned(m, msg, chatId, now);
    } else {
      OtherPreferencesKept(m, msg, chatId, now, key);
    }
  }

  /** The last value in a list of one-or-no updates. */
  lemma LastValueAppend(us: Prefs, u: Prefs, key: string)
    requires |u| <= 1
    ensures LastValue(us + u, key) == if u != [] && u[0].key == key then Some(u[0].value) else LastValue(us, key)
  {
    if u == [] {
      assert us + u == us;
    } else {
      assert u == [u[0]];
      LastValueSnoc(us, u[0], key);
    }
  }

  /** The name is the whole run of word characters after the leftmost `my name is ` (in any
      case) that one follows. */
  lemma NameRule(msg: string)
    ensures NameOf(msg) == Capture(msg, NamePattern)
    ensures NameOf(msg).Some? ==>
      && NameOf(msg).value != []
      && forall k :: 0 <= k < |NameOf(msg).value| ==> InClass(Word, NameOf(msg).value[k])
  {
    CaptureSpec(msg, NamePattern);
    if Capture(msg, NamePattern).Some? {
      CaptureImpliesGate(msg, NamePattern, "my name is");
    }
  }

  /** The job is the trimmed text after the first of the three phrases that matches, in the
      listed order, up to the first `.`, `!` or `?`; the keyword test before the patterns
      never stops a pattern that matches. */
  lemma JobRule(msg: string)
    ensures JobOf(msg) == Trimmed(OrElse(OrElse(Capture(msg, WorkAtPattern), Capture(msg, AmAPattern)), Capture(msg, JobIsPattern)))
    ensures Capture(msg, WorkAtPattern).Some? ==> JobOf(msg) == Some(Trim(Capture(msg, WorkAtPattern).value))
    ensures JobOf(msg).None? <==>
      forall i: nat :: !MatchesAt(msg, i, WorkAtPattern) && !MatchesAt(msg, i, AmAPattern) && !MatchesAt(msg, i, JobIsPattern)
  {
    CaptureSpec(msg, WorkAtPattern);
    CaptureSpec(msg, AmAPattern);
    CaptureSpec(msg, JobIsPattern);
    if Capture(msg, WorkAtPattern).Some? {
      CaptureImpliesGate(msg, WorkAtPattern, "i work at");
    } else if Capture(msg, AmAPattern).Some? {
      CaptureImpliesGate(msg, AmAPattern, "i am a ");
    } else if Capture(msg, JobIsPattern).Some? {
      CaptureImpliesGate(msg, JobIsPattern, "my job is");
    }
  }

  /** The location is the trimmed text after `i live in `, or else after `i am from `, up
      to the first `.`, `!` or `?`. */
  lemma LocationRule(msg: string)
    ensures LocationOf(msg) == Trimmed(OrElse(Capture(msg, LiveInPattern), Capture(msg, FromPattern)))
    ensures LocationOf(msg).None? <==>
      forall i: nat :: !MatchesAt(msg, i, LiveInPattern) && !MatchesAt(msg, i, FromPattern)
  {
    CaptureSpec(msg, LiveInPattern);
    CaptureSpec(msg, FromPattern);
    if Capture(msg, LiveInPattern).Some? {
      CaptureImpliesGate(msg, LiveInPattern, "i live in");
    } else if Capture(msg, FromPattern).Some? {
      CaptureImpliesGate(msg, FromPattern, "i am from");
    }
  }
}
