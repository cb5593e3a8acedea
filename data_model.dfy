/**
 * The records the renderer, the Gemini service and the main process pass to each other:
 * chat sessions and messages, the memory store (preferences, facts, topics), the calendar
 * snapshot the prompt shows, and the decoded function calls.
 */
module DataModel {
  import opened Wrappers
  import opened Strings

  /** An abstract `new Date()` value; the model never reads a clock. */
  type Time = nat

  /** Who wrote a message: the renderer only ever passes `'user'` or `'assistant'`. */
  datatype Sender = User | Assistant

  datatype Message = Message(text: string, sender: Sender, timestamp: Time)

  /** A chat session; `id` is the time-derived identifier the caller supplies. */
  datatype Chat = Chat(id: string, title: string, messages: seq<Message>, createdAt: Time)

  /** A remembered fact, tagged with the chat that was current when it was recorded. */
  datatype Fact = Fact(text: string, timestamp: Time, chatId: Option<string>)

  datatype Topic = Topic(topic: string, timestamp: Time)

  /** One own property of the `userPreferences` object. */
  datatype Pref = Pref(key: string, value: string)

  /** The `userPreferences` object, as its properties in insertion order (the order
      `Object.entries` reports them in). */
  type Prefs = seq<Pref>

  /** The whole memory store: what `globalMemory` holds and what is persisted as one blob. */
  datatype Memory = Memory(userPreferences: Prefs, facts: seq<Fact>, previousTopics: seq<Topic>)

  const EmptyMemory: Memory := Memory([], [], [])

  /** `prefs[key]`: the value of the first property called `key`. */
  function Lookup(p: Prefs, key: string): Option<string>
  {
    if p == [] then None
    else if p[0].key == key then Some(p[0].value)
    else Lookup(p[1..], key)
  }

  /** No property name is used twice, as in any JavaScript object. */
  ghost predicate UniqueKeys(p: Prefs) {
    forall i, j :: 0 <= i < j < |p| ==> p[i].key != p[j].key
  }

  lemma {:induction false} LookupNone(p: Prefs, key: string)
    requires Lookup(p, key).None?
    ensures forall i :: 0 <= i < |p| ==> p[i].key != key
  {
    if p != [] {
      LookupNone(p[1..], key);
      assert forall i :: 1 <= i < |p| ==> p[i] == p[1..][i - 1];
    }
  }

  /** `Object.assign(prefs, {[key]: value})`: the property is overwritten where it stands,
      or added at the end when it is new; every other property keeps its value and place. */
  function Assign(p: Prefs, key: string, value: string): (r: Prefs)
    ensures Lookup(r, key) == Some(value)
    ensures forall k :: k != key ==> Lookup(r, k) == Lookup(p, k)
    ensures Lookup(p, key).None? ==> r == p + [Pref(key, value)]
    ensures Lookup(p, key).Some? ==> |r| == |p| && forall i :: 0 <= i < |p| ==> r[i].key == p[i].key
    ensures UniqueKeys(p) ==> UniqueKeys(r)
  {
    if p == [] then [Pref(key, value)]
    else if p[0].key == key then [Pref(key, value)] + p[1..]
    else
      var rest := Assign(p[1..], key, value);
      assert UniqueKeys(p) ==> UniqueKeys(p[1..]) by {
        if UniqueKeys(p) {
          forall i, j | 0 <= i < j < |p[1..]| ensures p[1..][i].key != p[1..][j].key {
            assert p[1..][i] == p[i + 1] && p[1..][j] == p[j + 1];
          }
        }
      }
      assert UniqueKeys(p) && Lookup(p[1..], key).None? ==> p[0].key != key;
      assert UniqueKeys(p) ==> forall i :: 0 <= i < |rest| ==> rest[i].key != p[0].key by {
        if UniqueKeys(p) && Lookup(p[1..], key).None? {
          forall i | 0 <= i < |rest| ensures rest[i].key != p[0].key {
            if i < |p[1..]| {
              assert rest[i] == p[1..][i] == p[i + 1];
            }
          }
        }
      }
      [p[0]] + rest
  }

  /** The value the last property called `key` in `us` carries. */
  function LastValue(us: Prefs, key: string): Option<string>
  {
    if us == [] then None
    else if us[|us| - 1].key == key then Some(us[|us| - 1].value)
    else LastValue(us[..|us| - 1], key)
  }

  /** `Object.assign` applied once per update, in order. */
  function AssignAll(p: Prefs, us: Prefs): Prefs
    decreases |us|
  {
    if us == [] then p else AssignAll(Assign(p, us[0].key, us[0].value), us[1..])
  }

  /** Assigning two lists of properties in turn is assigning their concatenation. */
  lemma {:induction false} AssignAllAppend(p: Prefs, us: Prefs, vs: Prefs)
    ensures AssignAll(p, us + vs) == AssignAll(AssignAll(p, us), vs)
    decreases |us|
  {
    if us == [] {
      assert us + vs == vs;
    } else {
      assert (us + vs)[0] == us[0] && (us + vs)[1..] == us[1..] + vs;
      AssignAllAppend(Assign(p, us[0].key, us[0].value), us[1..], vs);
    }
  }

  lemma {:induction false} LastValueSnoc(us: Prefs, u: Pref, key: string)
    ensures LastValue(us + [u], key) == if u.key == key then Some(u.value) else LastValue(us, key)
  {
    assert (us + [u])[..|us + [u]| - 1] == us;
  }

  /** Assigning several properties one after another: the last write to a key wins, and a
      key no update names keeps its old value. */
  lemma {:induction false} AssignAllLookup(p: Prefs, us: Prefs, key: string)
    ensures Lookup(AssignAll(p, us), key) == if LastValue(us, key).Some? then LastValue(us, key) else Lookup(p, key)
    decreases |us|
  {
    if us != [] {
      var q := Assign(p, us[0].key, us[0].value);
      AssignAllLookup(q, us[1..], key);
      LastValueAfterFirst(us, key);
    }
  }

  lemma {:induction false} LastValueAfterFirst(us: Prefs, key: string)
    requires us != []
    ensures LastValue(us, key) == if LastValue(us[1..], key).Some? then LastValue(us[1..], key)
                                   else if us[0].key == key then Some(us[0].value) else None
    decreases |us|
  {
    if |us| > 1 {
      var init := us[..|us| - 1];
      assert init[1..] == us[1..][..|us[1..]| - 1];
      LastValueAfterFirst(init, key);
    }
  }

  /** When the event starts or ends: `dateTime` for a timed event, `date` for an all-day one. */
  datatype EventTime = EventTime(dateTime: Option<string>, date: Option<string>)

  /** The fields of a calendar event the prompt reads. */
  datatype Event = Event(summary: Option<string>, description: Option<string>, start: EventTime, end: EventTime)

  /** A task as the task list reports it; the prompt only serialises it. */
  datatype Task = Task(id: string, title: Option<string>, notes: Option<string>, due: Option<string>, status: Option<string>)

  /** The `memoryContext` object the renderer sends with every request; `None` stands for
      a property the object does not have (the main process defaults it to `{}`). */
  datatype MemoryContext = MemoryContext(
    userPreferences: Option<Prefs>,
    recentFacts: Option<seq<Fact>>,
    previousTopics: Option<seq<Topic>>,
    calendarEvents: Option<seq<Event>>,
    tasks: Option<seq<Task>>)

  /** A decoded `[FUNCTION_CALL]` payload: an object with its `function` property and its
      `parameters` object, or the JSON value `null`, whose properties cannot be read. */
  datatype Call = Call(name: Option<string>, parameters: map<string, string>) | NullCall

  /** `call.parameters[key]`. */
  function Param(c: Call, key: string): Option<string>
    requires c.Call?
  {
    if key in c.parameters then Some(c.parameters[key]) else None
  }
}
