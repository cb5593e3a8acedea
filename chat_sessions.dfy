/**
 * The renderer's conversation state as values: the chat list `createNewChat` and
 * `addMessageToChat` maintain, the bounded windows of history and memory `callGeminiAPI`
 * sends with each request, and the text it shows for the main process's reply.
 */
module ChatSessions {
  import opened Wrappers
  import opened Strings
  import opened DataModel
  import opened Dispatcher

  const NewChatTitle := "New Conversation"

  /** The session `createNewChat` pushes. */
  function NewChat(id: string, now: Time): Chat {
    Chat(id, NewChatTitle, [], now)
  }

  /** `chatHistory.find(c => c.id === chatId)`, as an index: the first chat with that id. */
  function FindChat(chats: seq<Chat>, id: Option<string>): (r: Option<nat>)
    ensures r.Some? ==> r.value < |chats|
  {
    FindChatFrom(chats, id, 0)
  }

  function FindChatFrom(chats: seq<Chat>, id: Option<string>, from: nat): (r: Option<nat>)
    ensures r.Some? ==> from <= r.value < |chats|
    decreases |chats| - from
  {
    if from >= |chats| then None
    else if Some(chats[from].id) == id then Some(from)
    else FindChatFrom(chats, id, from + 1)
  }

  lemma {:induction false} FindChatFromSpec(chats: seq<Chat>, id: Option<string>, from: nat)
    ensures FindChatFrom(chats, id, from).Some? ==>
      && Some(chats[FindChatFrom(chats, id, from).value].id) == id
      && forall j :: from <= j < FindChatFrom(chats, id, from).value ==> Some(chats[j].id) != id
    ensures FindChatFrom(chats, id, from).None? ==> forall j :: from <= j < |chats| ==> Some(chats[j].id) != id
    decreases |chats| - from
  {
    if from < |chats| && Some(chats[from].id) != id {
      FindChatFromSpec(chats, id, from + 1);
    }
  }

  /** The chat found is the first with the id; none is found exactly when no chat has it
      (in particular when the current id is still `null`). */
  lemma FindChatSpec(chats: seq<Chat>, id: Option<string>)
    ensures FindChat(chats, id).Some? ==>
      && Some(chats[FindChat(chats, id).value].id) == id
      && forall j :: 0 <= j < FindChat(chats, id).value ==> Some(chats[j].id) != id
    ensures FindChat(chats, id).None? <==> forall j :: 0 <= j < |chats| ==> Some(chats[j].id) != id
    ensures id.None? ==> FindChat(chats, id).None?
  {
    FindChatFromSpec(chats, id, 0);
  }

  /** The search looks only at the ids, so a list with the same ids finds the same chat. */
  lemma {:induction false} FindChatSameIds(a: seq<Chat>, b: seq<Chat>, id: Option<string>, from: nat)
    requires |a| == |b| && forall j :: 0 <= j < |a| ==> a[j].id == b[j].id
    ensures FindChatFrom(a, id, from) == FindChatFrom(b, id, from)
    decreases |a| - from
  {
    if from < |a| {
      FindChatSameIds(a, b, id, from + 1);
    }
  }

  /** The title a session takes from its first message. */
  function TitleFor(message: string): string {
    Take(message, 30) + (if |message| > 30 then "..." else "")
  }

  /** A message of at most 30 characters is its own title; a longer one is cut to its first
      30 characters followed by `...`. */
  lemma TitleRule(message: string)
    ensures |message| <= 30 ==> TitleFor(message) == message
    ensures |message| > 30 ==>
      && |TitleFor(message)| == 33
      && TitleFor(message)[..30] == message[..30]
      && TitleFor(message)[30..] == "..."
  {
  }

  /** One session after `chat.messages.push(…)` and the first-message title update. */
  function Appended(chat: Chat, message: string, sender: Sender, now: Time): Chat {
    var messages := chat.messages + [Message(message, sender, now)];
    chat.(messages := messages, title := if |messages| == 1 then TitleFor(message) else chat.title)
  }

  /** The chat list after `addMessageToChat(chatId, message, sender)`. */
  function WithMessage(chats: seq<Chat>, chatId: Option<string>, message: string, sender: Sender, now: Time): seq<Chat> {
    match FindChat(chats, chatId)
    case None => chats
    case Some(i) => chats[i := Appended(chats[i], message, sender, now)]
  }

  /** The message goes to the end of the first chat with the id and nowhere else; that chat
      keeps its id and creation time, and takes its title from the message exactly when it
      had no messages. An unknown id changes nothing. */
  lemma MessageAdded(chats: seq<Chat>, chatId: Option<string>, message: string, sender: Sender, now: Time)
    ensures |WithMessage(chats, chatId, message, sender, now)| == |chats|
    ensures FindChat(chats, chatId).None? ==> WithMessage(chats, chatId, message, sender, now) == chats
    ensures FindChat(chats, chatId).Some? ==>
      var i, r := FindChat(chats, chatId).value, WithMessage(chats, chatId, message, sender, now);
      && (forall j :: 0 <= j < |chats| && j != i ==> r[j] == chats[j])
      && r[i].id == chats[i].id && r[i].createdAt == chats[i].createdAt
      && r[i].messages == chats[i].messages + [Message(message, sender, now)]
      && (chats[i].messages == [] ==> r[i].title == TitleFor(message))
      && (chats[i].messages != [] ==> r[i].title == chats[i].title)
  {
  }

  /** `xs.slice(-n)`: the last `n` items, or all of them when there are fewer. */
  function Last<T>(xs: seq<T>, n: nat): (r: seq<T>)
    ensures |r| == if n < |xs| then n else |xs|
    ensures xs == xs[..|xs| - |r|] + r
  {
    if n < |xs| then xs[|xs| - n..] else xs
  }

  /** The `conversationHistory` sent with a request: the last ten messages of the current
      chat, or none when there is no current chat. */
  function ConversationWindow(chats: seq<Chat>, currentChatId: Option<string>): seq<Message> {
    match FindChat(chats, currentChatId)
    case None => []
    case Some(i) => Last(chats[i].messages, 10)
  }

  /** The `memoryContext` sent with a request. */
  function ContextWindow(m: Memory, events: seq<Event>, tasks: seq<Task>): MemoryContext {
    MemoryContext(Some(m.userPreferences), Some(Last(m.facts, 10)), Some(Last(m.previousTopics, 5)),
                  Some(events), Some(tasks))
  }

  /** The history window is the most recent messages of the current chat, at most ten, in
      their order, taken before the new question is appended to that chat, so the question is
      never part of its own history. */
  lemma HistoryWindowIsRecent(chats: seq<Chat>, currentChatId: Option<string>, question: string, now: Time)
    ensures FindChat(chats, currentChatId).Some? ==>
      var i := FindChat(chats, currentChatId).value;
      var h := ConversationWindow(chats, currentChatId);
      && |h| == (if |chats[i].messages| < 10 then |chats[i].messages| else 10)
      && h == chats[i].messages[|chats[i].messages| - |h|..]
      && WithMessage(chats, currentChatId, question, User, now)[i].messages == chats[i].messages + [Message(question, User, now)]
    ensures FindChat(chats, currentChatId).None? ==> ConversationWindow(chats, currentChatId) == []
  {
    if FindChat(chats, currentChatId).Some? {
      var i := FindChat(chats, currentChatId).value;
      var msgs := chats[i].messages;
      assert WithMessage(chats, currentChatId, question, User, now)[i] == Appended(chats[i], question, User, now);
      if 10 < |msgs| {
        assert ConversationWindow(chats, currentChatId) == msgs[|msgs| - 10..];
      } else {
        assert ConversationWindow(chats, currentChatId) == msgs == msgs[0..];
      }
    }
  }

  /** The memory windows are the ten most recent facts and the five most recent topics, in
      their order, and the whole preference object. */
  lemma MemoryWindowIsRecent(m: Memory, events: seq<Event>, tasks: seq<Task>)
    ensures var ctx := ContextWindow(m, events, tasks);
      && ctx.userPreferences == Some(m.userPreferences)
      && |ctx.recentFacts.value| == (if |m.facts| < 10 then |m.facts| else 10)
      && ctx.recentFacts.value == m.facts[|m.facts| - |ctx.recentFacts.value|..]
      && |ctx.previousTopics.value| == (if |m.previousTopics| < 5 then |m.previousTopics| else 5)
      && ctx.previousTopics.value == m.previousTopics[|m.previousTopics| - |ctx.previousTopics.value|..]
      && ctx.calendarEvents == Some(events) && ctx.tasks == Some(tasks)
  {
    var facts := Last(m.facts, 10);
    assert m.facts[|m.facts| - |facts|..] == facts;
    var topics := Last(m.previousTopics, 5);
    assert m.previousTopics[|m.previousTopics| - |topics|..] == topics;
  }

  const SuccessOpen := "<div class=\"function-success\"> "
  const ErrorOpen := "<div class=\"function-error\"> Function failed: "
  const DivClose := "</div>"

  /** The message `callGeminiAPI` builds for one function result. */
  function Fragment(r: FunctionResult): string {
    match r
    case Succeeded(_, _, message) => SuccessOpen + message + DivClose
    case Failed(error, _) => ErrorOpen + error + DivClose
  }

  /** A fragment is a `function-success` box around the result's message, or a
      `function-error` box around `Function failed: ` and the error. */
  lemma FragmentShape(r: FunctionResult)
    ensures EndsWith(Fragment(r), DivClose)
    ensures r.Succeeded? ==> StartsWith(Fragment(r), SuccessOpen) && At(Fragment(r), |SuccessOpen|, r.message)
    ensures r.Failed? ==> StartsWith(Fragment(r), ErrorOpen) && At(Fragment(r), |ErrorOpen|, r.error)
  {
    var open := if r.Succeeded? then SuccessOpen else ErrorOpen;
    var body := if r.Succeeded? then r.message else r.error;
    assert Fragment(r) == open + body + DivClose;
    AtMiddle(open, body, DivClose);
    EndsWithAppend(open + body, DivClose);
  }

  /** The response followed by the fragments of the results. */
  function Merged(response: string, results: seq<FunctionResult>): string {
    response + ConcatMap(results, Fragment)
  }

  /** The merged text begins with the model's response, then holds each result's fragment
      in the order of the results, each right after those before it; with no results it is
      the response unchanged. */
  lemma MergedShape(response: string, results: seq<FunctionResult>, k: nat)
    requires k < |results|
    ensures StartsWith(Merged(response, results), response)
    ensures At(Merged(response, results), |response| + |ConcatMap(results[..k], Fragment)|, Fragment(results[k]))
    ensures |ConcatMap(results[..k + 1], Fragment)| == |ConcatMap(results[..k], Fragment)| + |Fragment(results[k])|
  {
    ConcatMapPlaced(response, results, Fragment, "", k);
    assert Merged(response, results) + "" == Merged(response, results);
  }

  lemma NoResultsNoChange(response: string)
    ensures Merged(response, []) == response
  {
  }

  const ErrorReplyPrefix := "Sorry, I encountered an error: "

  /** What the assistant's message says for a reply of the main process. */
  function ReplyText(reply: HandlerReply): string {
    match reply
    case Answered(response) => response
    case AnsweredWithCalls(response, _, functionResults) => Merged(response, functionResults)
    case Error(error) => ErrorReplyPrefix + error
  }

  /** The chat list after one question and its answer. */
  function AfterTurn(chats: seq<Chat>, chatId: Option<string>, question: string, answer: string, now: Time): seq<Chat> {
    WithMessage(WithMessage(chats, chatId, question, User, now), chatId, answer, Assistant, now)
  }

  /** A turn appends the question and then the answer to the current chat, whose title comes
      from the question when the chat was empty; without a current chat, nothing changes. */
  lemma TurnRecorded(chats: seq<Chat>, chatId: Option<string>, question: string, answer: string, now: Time)
    ensures FindChat(chats, chatId).None? ==> AfterTurn(chats, chatId, question, answer, now) == chats
    ensures FindChat(chats, chatId).Some? ==>
      var i, r := FindChat(chats, chatId).value, AfterTurn(chats, chatId, question, answer, now);
      && |r| == |chats|
      && (forall j :: 0 <= j < |chats| && j != i ==> r[j] == chats[j])
      && r[i].messages == chats[i].messages + [Message(question, User, now), Message(answer, Assistant, now)]
      && r[i].title == (if chats[i].messages == [] then TitleFor(question) else chats[i].title)
  {
    var mid := WithMessage(chats, chatId, question, User, now);
    MessageAdded(chats, chatId, question, User, now);
    if FindChat(chats, chatId).Some? {
      var i := FindChat(chats, chatId).value;
      FindChatSameIds(chats, mid, chatId, 0);
      MessageAdded(mid, chatId, answer, Assistant, now);
    }
  }
}
