/**
 * The renderer's globals and the functions that change them: `globalMemory` with its
 * persisted copy, `chatHistory` and `currentChatId`, and the part of `callGeminiAPI` that
 * sends one question to the main process and records the answer.
 */
module Renderer {
  import opened Wrappers
  import opened Strings
  import opened DataModel
  import opened Dispatcher
  import opened MemoryExtraction
  import opened ChatSessions

  /** One fact rule's effect on the store: the fact is appended when the rule fires. */
  function WithFact(m: Memory, fires: bool, f: Fact): Memory {
    m.(facts := Grown(m.facts, fires, f))
  }

  function Grown(facts: seq<Fact>, fires: bool, f: Fact): seq<Fact> {
    if fires then facts + [f] else facts
  }

  /** One preference rule's effect on the store. */
  function WithPrefs(m: Memory, props: Prefs): Memory {
    m.(userPreferences := AssignAll(m.userPreferences, props))
  }

  /** The store after each rule of `extractAndSaveMemory` in the order the source runs them:
      the first fact rule, the name and job rules, four more fact rules, the location rule,
      and the topic. */
  function Staged(m: Memory, msg: string, chatId: Option<string>, now: Time): Memory {
    var lower := Lower(msg);
    var f := Fact(msg, now, chatId);
    var m1 := WithPrefs(WithPrefs(WithFact(m, StatesOwnThing(lower), f), PrefUpdate("name", NameOf(msg))),
                        PrefUpdate("job", JobOf(msg)));
    var m2 := WithFact(WithFact(WithFact(WithFact(m1, StatesPossession(lower), f), StatesLiking(lower), f),
                                StatesSkill(lower), f), StatesProject(lower), f);
    var m3 := WithPrefs(m2, PrefUpdate("location", LocationOf(msg)));
    m3.(previousTopics := m3.previousTopics + [Topic(Take(msg, 50), now)])
  }

  /** Running the rules one by one, each saving what it changed, leaves the store the whole
      extraction describes: fact rules and preference rules touch different parts of it, so
      their interleaving does not matter. */
  lemma StagedIsExtracted(m: Memory, msg: string, chatId: Option<string>, now: Time)
    requires !IsRememberCommand(msg)
    ensures Staged(m, msg, chatId, now) == Extracted(m, msg, chatId, now)
  {
    var lower := Lower(msg);
    var f := Fact(msg, now, chatId);
    var a, b, c := PrefUpdate("name", NameOf(msg)), PrefUpdate("job", JobOf(msg)), PrefUpdate("location", LocationOf(msg));
    AssignAllAppend(m.userPreferences, a, b);
    AssignAllAppend(m.userPreferences, a + b, c);
    StagedFacts(m.facts, f, StatesOwnThing(lower), StatesPossession(lower), StatesLiking(lower),
                StatesSkill(lower), StatesProject(lower));
  }

  /** Five fact rules in turn append one copy of the fact per rule that fires. */
  lemma StagedFacts(facts: seq<Fact>, f: Fact, own: bool, possession: bool, liking: bool, skill: bool, project: bool)
    ensures Grown(Grown(Grown(Grown(Grown(facts, own, f), possession, f), liking, f), skill, f), project, f)
            == facts + Copies(f, Count(own) + Count(possession) + Count(liking) + Count(skill) + Count(project))
  {
  }

  /** `ipcRenderer.invoke('gemini-request', message, history, memoryContext)`: the reply of
      the main process's handler (modelled as `Dispatcher.HandleRequest`). */
  type Invoke = (string, seq<Message>, MemoryContext) -> HandlerReply

  /** `callGeminiAPI`'s loop over `result.functionResults`, then the `join('')`. */
  method MergeFunctionResults(response: string, functionResults: seq<FunctionResult>) returns (combinedResponse: string)
    ensures combinedResponse == Merged(response, functionResults)
  {
    combinedResponse := response;
    var functionMessages: seq<string> := [];
    for i := 0 to |functionResults|
      invariant Concat(functionMessages) == ConcatMap(functionResults[..i], Fragment)
      invariant |functionMessages| == i
    {
      var functionResult := functionResults[i];
      ghost var before := functionMessages;
      if functionResult.Succeeded? {
        functionMessages := functionMessages + [SuccessOpen + functionResult.message + DivClose];
      } else {
        functionMessages := functionMessages + [ErrorOpen + functionResult.error + DivClose];
      }
      assert functionMessages[..|functionMessages| - 1] == before;
      assert functionMessages[i] == Fragment(functionResult);
      assert Concat(functionMessages) == Concat(before) + Fragment(functionResult);
      assert functionResults[..i + 1][..i] == functionResults[..i];
    }
    assert functionResults[..|functionResults|] == functionResults;
    if |functionMessages| > 0 {
      JoinWithoutSeparator(functionMessages);
      combinedResponse := response + Join(functionMessages, "");
    }
  }

  /** `xs.join('')` puts the pieces side by side. */
  lemma {:induction false} JoinWithoutSeparator(xs: seq<string>)
    ensures Join(xs, "") == Concat(xs)
  {
    if |xs| > 1 {
      JoinWithoutSeparator(xs[..|xs| - 1]);
    }
  }

  class RendererState {
    /** `globalMemory`. */
    var memory: Memory
    /** The `jarvis-memory` entry of `localStorage`. */
    var snapshot: Memory
    var chatHistory: seq<Chat>
    var currentChatId: Option<string>

    constructor ()
      ensures memory == EmptyMemory && snapshot == EmptyMemory
      ensures chatHistory == [] && currentChatId == None
    {
      memory := EmptyMemory;
      snapshot := EmptyMemory;
      chatHistory := [];
      currentChatId := None;
    }

    /** `saveGlobalMemory()`. */
    method SaveGlobalMemory()
      modifies this
      ensures snapshot == memory
      ensures memory == old(memory) && chatHistory == old(chatHistory) && currentChatId == old(currentChatId)
    {
      snapshot := memory;
    }

    /** `addToMemory(type, data)`. */
    method AddToMemory(entry: MemoryEntry, now: Time)
      modifies this
      ensures memory == AddedToMemory(old(memory), entry, currentChatId, now)
      ensures snapshot == memory
      ensures chatHistory == old(chatHistory) && currentChatId == old(currentChatId)
    {
      match entry {
        case FactEntry(text) =>
          memory := memory.(facts := memory.facts + [Fact(text, now, currentChatId)]);
        case PreferenceEntry(props) =>
          memory := memory.(userPreferences := AssignAll(memory.userPreferences, props));
      }
      SaveGlobalMemory();
    }

    /** `extractAndSaveMemory(userMessage, aiResponse)`; the response is not read. */
    method ExtractAndSaveMemory(userMessage: string, aiResponse: string, now: Time)
      modifies this
      ensures memory == Extracted(old(memory), userMessage, currentChatId, now)
      ensures snapshot == memory
      ensures chatHistory == old(chatHistory) && currentChatId == old(currentChatId)
    {
      var lowerMessage := Lower(userMessage);
      if StartsWith(lowerMessage, RememberThat) || StartsWith(lowerMessage, RememberColon) {
        var fact := Drop(userMessage, if StartsWith(lowerMessage, RememberThat) then 14 else 10);
        AddToMemory(FactEntry(fact), now);
        return;
      }
      RecordStatement(userMessage, lowerMessage, now);
      StagedIsExtracted(old(memory), userMessage, currentChatId, now);
    }

    /** `extractAndSaveMemory` for a message that is not a command: the five fact rules and
        the three preference rules in the order the source runs them, then the topic. */
    method RecordStatement(userMessage: string, lowerMessage: string, now: Time)
      requires lowerMessage == Lower(userMessage)
      modifies this
      ensures memory == Staged(old(memory), userMessage, currentChatId, now)
      ensures snapshot == memory
      ensures chatHistory == old(chatHistory) && currentChatId == old(currentChatId)
    {
      RecordFact(userMessage, now, StatesOwnThing(lowerMessage));
      RecordName(userMessage, lowerMessage, now);
      RecordJob(userMessage, lowerMessage, now);
      RecordFact(userMessage, now, StatesPossession(lowerMessage));
      RecordFact(userMessage, now, StatesLiking(lowerMessage));
      RecordFact(userMessage, now, StatesSkill(lowerMessage));
      RecordFact(userMessage, now, StatesProject(lowerMessage));
      RecordLocation(userMessage, lowerMessage, now);
      memory := memory.(previousTopics := memory.previousTopics + [Topic(Take(userMessage, 50), now)]);
      SaveGlobalMemory();
    }

    /** One fact rule: when it fires, the whole message becomes one more fact. */
    method RecordFact(userMessage: string, now: Time, fires: bool)
      modifies this
      ensures memory == WithFact(old(memory), fires, Fact(userMessage, now, currentChatId))
      ensures snapshot == if fires then memory else old(snapshot)
      ensures chatHistory == old(chatHistory) && currentChatId == old(currentChatId)
    {
      if fires {
        AddToMemory(FactEntry(userMessage), now);
      }
    }

    /** The name rule. */
    method RecordName(userMessage: string, lowerMessage: string, now: Time)
      requires lowerMessage == Lower(userMessage)
      modifies this
      ensures memory == WithPrefs(old(memory), PrefUpdate("name", NameOf(userMessage)))
      ensures snapshot == if NameOf(userMessage).Some? then memory else old(snapshot)
      ensures chatHistory == old(chatHistory) && currentChatId == old(currentChatId)
    {
      if Contains(lowerMessage, "my name is") {
        var nameMatch := Capture(userMessage, NamePattern);
        if nameMatch.Some? {
          AddToMemory(PreferenceEntry([Pref("name", nameMatch.value)]), now);
        }
      }
    }

    /** The job rule: the first of the three patterns that matches. */
    method RecordJob(userMessage: string, lowerMessage: string, now: Time)
      requires lowerMessage == Lower(userMessage)
      modifies this
      ensures memory == WithPrefs(old(memory), PrefUpdate("job", JobOf(userMessage)))
      ensures snapshot == if JobOf(userMessage).Some? then memory else old(snapshot)
      ensures chatHistory == old(chatHistory) && currentChatId == old(currentChatId)
    {
      if Contains(lowerMessage, "i work at") || Contains(lowerMessage, "i am a ") || Contains(lowerMessage, "my job is") {
        var jobMatch := OrElse(OrElse(Capture(userMessage, WorkAtPattern), Capture(userMessage, AmAPattern)),
                               Capture(userMessage, JobIsPattern));
        if jobMatch.Some? {
          AddToMemory(PreferenceEntry([Pref("job", Trim(jobMatch.value))]), now);
        }
      }
    }

    /** The location rule: `i live in`, or else `i am from`. */
    method RecordLocation(userMessage: string, lowerMessage: string, now: Time)
      requires lowerMessage == Lower(userMessage)
      modifies this
      ensures memory == WithPrefs(old(memory), PrefUpdate("location", LocationOf(userMessage)))
      ensures snapshot == if LocationOf(userMessage).Some? then memory else old(snapshot)
      ensures chatHistory == old(chatHistory) && currentChatId == old(currentChatId)
    {
      if Contains(lowerMessage, "i live in") || Contains(lowerMessage, "i am from") {
        var locationMatch := OrElse(Capture(userMessage, LiveInPattern), Capture(userMessage, FromPattern));
        if locationMatch.Some? {
          AddToMemory(PreferenceEntry([Pref("location", Trim(locationMatch.value))]), now);
        }
      }
    }

    /** `createNewChat()`, with `Date.now().toString()` and `new Date()` as parameters. */
    method CreateNewChat(chatId: string, now: Time) returns (id: string)
      modifies this
      ensures chatHistory == old(chatHistory) + [NewChat(chatId, now)]
      ensures currentChatId == Some(chatId) && id == chatId
      ensures memory == old(memory) && snapshot == old(snapshot)
    {
      chatHistory := chatHistory + [NewChat(chatId, now)];
      currentChatId := Some(chatId);
      id := chatId;
    }

    /** `addMessageToChat(chatId, message, sender)`. */
    method AddMessageToChat(chatId: Option<string>, message: string, sender: Sender, now: Time)
      modifies this
      ensures chatHistory == WithMessage(old(chatHistory), chatId, message, sender, now)
      ensures memory == old(memory) && snapshot == old(snapshot) && currentChatId == old(currentChatId)
    {
      var found := FindChat(chatHistory, chatId);
      if found.Some? {
        var chat := chatHistory[found.value];
        var messages := chat.messages + [Message(message, sender, now)];
        chat := chat.(messages := messages);
        if |chat.messages| == 1 {
          chat := chat.(title := Take(message, 30) + (if |message| > 30 then "..." else ""));
        }
        chatHistory := chatHistory[found.value := chat];
      }
    }

    /** `callGeminiAPI(userMessage)` once the calendar events and tasks are fetched: the
        question is recorded, the main process answers, and the answer is recorded; on a
        successful reply the question also feeds the memory. */
    method CallGeminiApi(userMessage: string, calendarEvents: seq<Event>, tasks: seq<Task>, invoke: Invoke, now: Time)
      modifies this
      ensures var reply := invoke(userMessage, ConversationWindow(old(chatHistory), old(currentChatId)),
                                  ContextWindow(old(memory), calendarEvents, tasks));
        && chatHistory == AfterTurn(old(chatHistory), old(currentChatId), userMessage, ReplyText(reply), now)
        && memory == (if reply.Error? then old(memory) else Extracted(old(memory), userMessage, old(currentChatId), now))
        && snapshot == (if reply.Error? then old(snapshot) else memory)
        && currentChatId == old(currentChatId)
    {
      var conversationHistory := ConversationWindow(chatHistory, currentChatId);
      var memoryContext := ContextWindow(memory, calendarEvents, tasks);
      AddMessageToChat(currentChatId, userMessage, User, now);
      var result := invoke(userMessage, conversationHistory, memoryContext);
      match result {
        case Answered(response) =>
          AddMessageToChat(currentChatId, response, Assistant, now);
          ExtractAndSaveMemory(userMessage, response, now);
        case AnsweredWithCalls(response, _, functionResults) =>
          var combinedResponse := MergeFunctionResults(response, functionResults);
          AddMessageToChat(currentChatId, combinedResponse, Assistant, now);
          ExtractAndSaveMemory(userMessage, response, now);
        case Error(error) =>
          AddMessageToChat(currentChatId, ErrorReplyPrefix + error, Assistant, now);
      }
    }
  }
}
