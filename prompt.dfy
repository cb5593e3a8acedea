/**
 * The system prompt `generateResponse` sends to the model: a fixed template with the memory
 * context interpolated, then the preferences, the recent facts, the calendar and the
 * conversation so far as line-per-item sections, then the question and closing instructions.
 */
module PromptComposer {
  import opened Wrappers
  import opened Strings
  import opened DataModel

  /** The library calls the prompt text depends on but whose output is not specified here:
      `JSON.stringify` of each part of the context and `new Date(v).toLocaleString()`. */
  datatype Formatters = Formatters(
    prefsJson: Prefs -> string,
    eventsJson: seq<Event> -> string,
    tasksJson: seq<Task> -> string,
    localeTime: Option<string> -> string)

  /** The fixed text of the prompt: what comes before the memory context, the
      calendar-access paragraph, the block from the capability list to the last general
      rule, the closing instructions, and the headings of the line-per-item sections. */
  datatype Template = Template(
    intro: string, access: string, guide: string, closing: string,
    prefsHeading: string, factsHeading: string, eventsHeading: string, noEvents: string,
    historyHeading: string, questionLabel: string)

  /** A template line and the line break that ends it. */
  function LineOf(l: string): string { l + "\n" }

  const IntroLines: seq<string> := [
    "You are Jarvis, an intelligent AI assistant. You have access to the user's Google Calendar and Google Tasks.",
    "",
    "MEMORY CONTEXT:"
  ]

  const AccessLines: seq<string> := [
    "CALENDAR & TASKS ACCESS:",
    "You can see upcoming calendar events and current tasks."
  ]

  /** From the capability list to the last general rule, with the function-call formats,
      one entry per line of the template. */
  const InstructionLines: seq<string> := [
    "CAPABILITIES:",
    "- You CAN view existing calendar events and tasks",
    "- You CAN help plan around existing events",
    "- You CAN discuss calendar conflicts and availability",
    "- You CAN create new calendar events by calling functions",
    "- You CAN create, complete, and delete tasks by calling functions",
    "",
    "AVAILABLE FUNCTIONS:",
    "",
    "1. CREATE CALENDAR EVENT:",
    "[FUNCTION_CALL]",
    "{",
    "  \"function\": \"createCalendarEvent\",",
    "  \"parameters\": {",
    "    \"title\": \"Event Title\",",
    "    \"description\": \"Optional description\",",
    "    \"startTime\": \"YYYY-MM-DDTHH:MM:SS\",",
    "    \"endTime\": \"YYYY-MM-DDTHH:MM:SS\"",
    "  }",
    "}",
    "[/FUNCTION_CALL]",
    "",
    "2. CREATE TASK:",
    "[FUNCTION_CALL]",
    "{",
    "  \"function\": \"createTask\",",
    "  \"parameters\": {",
    "    \"title\": \"Task Title\",",
    "    \"notes\": \"Optional notes/description\",",
    "    \"dueDate\": \"YYYY-MM-DD\" (optional)",
    "  }",
    "}",
    "[/FUNCTION_CALL]",
    "",
    "3. COMPLETE TASK:",
    "[FUNCTION_CALL]",
    "{",
    "  \"function\": \"completeTask\",",
    "  \"parameters\": {",
    "    \"taskId\": \"task_id_from_tasks_list\",",
    "    \"taskListId\": \"@default\"",
    "  }",
    "}",
    "[/FUNCTION_CALL]",
    "",
    "4. DELETE TASK:",
    "[FUNCTION_CALL]",
    "{",
    "  \"function\": \"deleteTask\",",
    "  \"parameters\": {",
    "    \"taskId\": \"task_id_from_tasks_list\", ",
    "    \"taskListId\": \"@default\"",
    "  }",
    "}",
    "[/FUNCTION_CALL]",
    "",
    "CRITICAL FUNCTION CALLING RULES:",
    "- Use EXACT format above with [FUNCTION_CALL] and [/FUNCTION_CALL] tags",
    "- For calendar events: startTime and endTime must be in Eastern Time format",
    "- For tasks: Use simple YYYY-MM-DD format for dueDate if specified",
    "- Always provide required parameters",
    "- If user doesn't specify date/time, ask them to provide specifics",
    "- CRITICAL: User is in Eastern Time (EST/EDT)",
    "- For calendar times, use format like \"2024-09-21T14:00:00\" (no Z) for 2PM Eastern",
    "- For task due dates, use format like \"2024-09-21\"",
    "",
    "MARKDOWN FORMATTING (MANDATORY):",
    "- Use **bold** for important information",
    "- Use *italics* for emphasis",
    "- Use bullet points with - or *",
    "- Use ## for headings",
    "- Use `code` for technical terms",
    "- Use > for quotes",
    "- Always format your responses in Markdown",
    "",
    "RULES:",
    "- Always respond in well-formatted Markdown",
    "- Be helpful and professional",
    "- If function calls fail, acknowledge the error and suggest alternatives",
    "- For tasks, distinguish between due dates and general reminders"
  ]

  /** The closing instructions; the last line has no line break after it. */
  const ClosingLines: seq<string> := [
    "IMPORTANT: ",
    "- You have access to the user's calendar events listed above",
    "- When asked about calendar/schedule, refer to the specific events shown",
    "- Respond using ONLY Markdown syntax. Do not use any HTML tags. Use # for headings, **bold**, *italic*, - for lists, etc."
  ]
  const ClosingLast: string := "- Be helpful and specific about calendar information when available"

  /** The template the service uses. */
  const Jarvis: Template := Template(
    "\n" + ConcatMap(IntroLines, LineOf),
    "\n\n" + ConcatMap(AccessLines, LineOf),
    "\n\n" + ConcatMap(InstructionLines, LineOf),
    "\n\n" + ConcatMap(ClosingLines, LineOf) + ClosingLast,
    PrefsHeading, FactsHeading, EventsHeading, NoEventsLine, HistoryHeading, QuestionLabel)

  const PrefsHeading: string := "What I remember about you:\n"
  const FactsHeading: string := "Recent facts from our conversations:\n"
  const EventsHeading: string := "CURRENT CALENDAR EVENTS:\n"
  const NoEventsLine: string := "CALENDAR STATUS: No upcoming events found or calendar not accessible."
  const HistoryHeading: string := "Current conversation:\n"
  const QuestionLabel: string := "Current question: "

  function FactText(f: Fact): string { f.text }
  function TopicText(t: Topic): string { t.topic }

  /** `recentFacts.map(f => f.text).join(', ')`. */
  function FactTexts(fs: seq<Fact>): string { Join(Map(fs, FactText), ", ") }

  /** `previousTopics.map(t => t.topic).join(', ')`. */
  function TopicTexts(ts: seq<Topic>): string { Join(Map(ts, TopicText), ", ") }

  /** The template with the context interpolated, up to and including the general rules;
      each `${c ? `caption${text}` : ''}` slot is empty when its part of the context is
      absent (present objects and arrays are truthy, even when empty). */
  function Header(ctx: MemoryContext, fmt: Formatters, t: Template): string {
    t.intro
    + (if ctx.userPreferences.Some? then "User Info: " + fmt.prefsJson(ctx.userPreferences.value) else "") + "\n"
    + (if ctx.recentFacts.Some? then "Recent Facts: " + FactTexts(ctx.recentFacts.value) else "") + "\n"
    + (if ctx.previousTopics.Some? then "Previous Topics: " + TopicTexts(ctx.previousTopics.value) else "")
    + t.access
    + (if ctx.calendarEvents.Some? then "Upcoming Events: " + fmt.eventsJson(ctx.calendarEvents.value) else "") + "\n"
    + (if ctx.tasks.Some? then "Current Tasks: " + fmt.tasksJson(ctx.tasks.value) else "")
    + t.guide
  }

  /** `xs.map(f)`. */
  function Map<T, U>(xs: seq<T>, f: T -> U): (r: seq<U>)
    ensures |r| == |xs| && forall i :: 0 <= i < |xs| ==> r[i] == f(xs[i])
  {
    seq(|xs|, i requires 0 <= i < |xs| => f(xs[i]))
  }

  function PrefLine(p: Pref): string { "- " + p.key + ": " + p.value + "\n" }
  function FactLine(f: Fact): string { "- " + f.text + "\n" }

  /** What `event.start.dateTime || event.start.date` passes to `new Date`. */
  function DateArg(t: EventTime): Option<string> {
    if Truthy(t.dateTime) then t.dateTime else t.date
  }

  /** The summary line of an event. */
  function EventLine(e: Event, fmt: Formatters): string {
    Concat(["- **", Show(e.summary), "**: ", fmt.localeTime(DateArg(e.start)), " to ", fmt.localeTime(DateArg(e.end)), "\n"])
  }

  /** The description line, only for an event whose description is not empty. */
  function DescriptionLine(e: Event): string {
    if Truthy(e.description) then Concat(["  Description: ", e.description.value, "\n"]) else ""
  }

  function EventLines(e: Event, fmt: Formatters): string { EventLine(e, fmt) + DescriptionLine(e) }

  /** `EventLines` with the formatters fixed, as the loop over the events applies it. */
  function EventRenderer(fmt: Formatters): Event -> string {
    e => EventLines(e, fmt)
  }

  /** Appending an event's summary line and then, when it has one, its description line
      appends its `EventLines`. */
  lemma EventAppended(pre: string, e: Event, fmt: Formatters)
    ensures (if Truthy(e.description) then pre + EventLine(e, fmt) + DescriptionLine(e) else pre + EventLine(e, fmt))
            == pre + EventLines(e, fmt)
  {
    var a, b := EventLine(e, fmt), DescriptionLine(e);
    assert pre + a + b == pre + (a + b);
    if !Truthy(e.description) {
      assert b == "";
      assert a + b == a;
    }
  }

  /** `Human:` for a message the user sent, `Jarvis:` for any other. */
  function HistoryLine(m: Message): string {
    (if m.sender == User then "Human: " else "Jarvis: ") + m.text + "\n"
  }

  function PrefsSection(t: Template, ctx: MemoryContext): string {
    if ctx.userPreferences.Some? && |ctx.userPreferences.value| > 0
    then t.prefsHeading + ConcatMap(ctx.userPreferences.value, PrefLine) + "\n"
    else ""
  }

  function FactsSection(t: Template, ctx: MemoryContext): string {
    if ctx.recentFacts.Some? && |ctx.recentFacts.value| > 0
    then t.factsHeading + ConcatMap(ctx.recentFacts.value, FactLine) + "\n"
    else ""
  }

  function CalendarSection(t: Template, ctx: MemoryContext, fmt: Formatters): string {
    if ctx.calendarEvents.Some? && |ctx.calendarEvents.value| > 0
    then t.eventsHeading + ConcatMap(ctx.calendarEvents.value, EventRenderer(fmt)) + "\n"
    else t.noEvents + "\n\n"
  }

  function HistorySection(t: Template, history: seq<Message>): string {
    if |history| > 0 then t.historyHeading + ConcatMap(history, HistoryLine) + "\n" else ""
  }

  function QuestionPart(t: Template, prompt: string): string { t.questionLabel + prompt + t.closing }

  /** The whole system prompt, for the fixed text of any template. */
  function PromptWith(t: Template, prompt: string, history: seq<Message>, ctx: MemoryContext, fmt: Formatters): string {
    Header(ctx, fmt, t) + PrefsSection(t, ctx) + FactsSection(t, ctx) + CalendarSection(t, ctx, fmt)
    + HistorySection(t, history) + QuestionPart(t, prompt)
  }

  /** The preferences block: one `- key: value` line per property, in order. */
  method AppendPrefsSection(t: Template, acc: string, ctx: MemoryContext) returns (systemPrompt: string)
    ensures systemPrompt == acc + PrefsSection(t, ctx)
  {
    systemPrompt := acc;
    if ctx.userPreferences.Some? && |ctx.userPreferences.value| > 0 {
      var prefs := ctx.userPreferences.value;
      systemPrompt := systemPrompt + t.prefsHeading;
      var i := 0;
      while i < |prefs|
        invariant 0 <= i <= |prefs|
        invariant systemPrompt == acc + t.prefsHeading + ConcatMap(prefs[..i], PrefLine)
      {
        ConcatMapStep(acc + t.prefsHeading, prefs, i, PrefLine);
        systemPrompt := systemPrompt + PrefLine(prefs[i]);
        i := i + 1;
      }
      assert prefs[..i] == prefs;
      Regroup(acc, t.prefsHeading, ConcatMap(prefs, PrefLine), "\n");
      systemPrompt := systemPrompt + "\n";
    }
  }

  /** The facts block: one `- text` line per fact, in order. */
  method AppendFactsSection(t: Template, acc: string, ctx: MemoryContext) returns (systemPrompt: string)
    ensures systemPrompt == acc + FactsSection(t, ctx)
  {
    systemPrompt := acc;
    if ctx.recentFacts.Some? && |ctx.recentFacts.value| > 0 {
      var facts := ctx.recentFacts.value;
      systemPrompt := systemPrompt + t.factsHeading;
      var i := 0;
      while i < |facts|
        invariant 0 <= i <= |facts|
        invariant systemPrompt == acc + t.factsHeading + ConcatMap(facts[..i], FactLine)
      {
        ConcatMapStep(acc + t.factsHeading, facts, i, FactLine);
        systemPrompt := systemPrompt + FactLine(facts[i]);
        i := i + 1;
      }
      assert facts[..i] == facts;
      Regroup(acc, t.factsHeading, ConcatMap(facts, FactLine), "\n");
      systemPrompt := systemPrompt + "\n";
    }
  }

  /** The calendar block, or the line saying there are no events. */
  method AppendCalendarSection(t: Template, acc: string, ctx: MemoryContext, fmt: Formatters) returns (systemPrompt: string)
    ensures systemPrompt == acc + CalendarSection(t, ctx, fmt)
  {
    systemPrompt := acc;
    if ctx.calendarEvents.Some? && |ctx.calendarEvents.value| > 0 {
      var events := ctx.calendarEvents.value;
      systemPrompt := systemPrompt + t.eventsHeading;
      var i := 0;
      while i < |events|
        invariant 0 <= i <= |events|
        invariant systemPrompt == acc + t.eventsHeading + ConcatMap(events[..i], EventRenderer(fmt))
      {
        var event := events[i];
        ghost var before := systemPrompt;
        ConcatMapStep(acc + t.eventsHeading, events, i, EventRenderer(fmt));
        EventAppended(before, event, fmt);
        systemPrompt := systemPrompt + EventLine(event, fmt);
        if Truthy(event.description) {
          systemPrompt := systemPrompt + DescriptionLine(event);
        }
        i := i + 1;
      }
      assert events[..i] == events;
      Regroup(acc, t.eventsHeading, ConcatMap(events, EventRenderer(fmt)), "\n");
      systemPrompt := systemPrompt + "\n";
    } else {
      systemPrompt := systemPrompt + t.noEvents + "\n\n";
    }
  }

  /** The conversation block: one `Human:` or `Jarvis:` line per message, in order. */
  method AppendHistorySection(t: Template, acc: string, history: seq<Message>) returns (systemPrompt: string)
    ensures systemPrompt == acc + HistorySection(t, history)
  {
    systemPrompt := acc;
    if |history| > 0 {
      systemPrompt := systemPrompt + t.historyHeading;
      var i := 0;
      while i < |history|
        invariant 0 <= i <= |history|
        invariant systemPrompt == acc + t.historyHeading + ConcatMap(history[..i], HistoryLine)
      {
        ConcatMapStep(acc + t.historyHeading, history, i, HistoryLine);
        systemPrompt := systemPrompt + HistoryLine(history[i]);
        i := i + 1;
      }
      assert history[..i] == history;
      Regroup(acc, t.historyHeading, ConcatMap(history, HistoryLine), "\n");
      systemPrompt := systemPrompt + "\n";
    }
  }

  /** The system prompt the service sends. */
  function SystemPrompt(prompt: string, history: seq<Message>, ctx: MemoryContext, fmt: Formatters): string {
    PromptWith(Jarvis, prompt, history, ctx, fmt)
  }

  /** The prompt assembled as `generateResponse` does it, one `+=` at a time. */
  method ComposeSystemPrompt(prompt: string, history: seq<Message>, ctx: MemoryContext, fmt: Formatters)
    returns (systemPrompt: string)
    ensures systemPrompt == SystemPrompt(prompt, history, ctx, fmt)
  {
    systemPrompt := Header(ctx, fmt, Jarvis);
    systemPrompt := AppendPrefsSection(Jarvis, systemPrompt, ctx);
    systemPrompt := AppendFactsSection(Jarvis, systemPrompt, ctx);
    systemPrompt := AppendCalendarSection(Jarvis, systemPrompt, ctx, fmt);
    systemPrompt := AppendHistorySection(Jarvis, systemPrompt, history);
    systemPrompt := systemPrompt + QuestionPart(Jarvis, prompt);
  }

  /** Where the calendar part of the prompt begins. */
  function CalendarStart(t: Template, ctx: MemoryContext, fmt: Formatters): nat {
    |Header(ctx, fmt, t)| + |PrefsSection(t, ctx)| + |FactsSection(t, ctx)|
  }

  /** Where the conversation part of the prompt begins. */
  function HistoryStart(t: Template, ctx: MemoryContext, fmt: Formatters): nat {
    CalendarStart(t, ctx, fmt) + |CalendarSection(t, ctx, fmt)|
  }

  /** Where the lines of preference `i` begin. */
  function PrefStart(t: Template, ctx: MemoryContext, fmt: Formatters, i: nat): nat
    requires ctx.userPreferences.Some? && i <= |ctx.userPreferences.value|
  {
    |Header(ctx, fmt, t)| + |t.prefsHeading| + |ConcatMap(ctx.userPreferences.value[..i], PrefLine)|
  }

  /** Where the line of fact `i` begins. */
  function FactStart(t: Template, ctx: MemoryContext, fmt: Formatters, i: nat): nat
    requires ctx.recentFacts.Some? && i <= |ctx.recentFacts.value|
  {
    |Header(ctx, fmt, t)| + |PrefsSection(t, ctx)| + |t.factsHeading| + |ConcatMap(ctx.recentFacts.value[..i], FactLine)|
  }

  /** Where the lines of event `i` begin. */
  function EventStart(t: Template, ctx: MemoryContext, fmt: Formatters, i: nat): nat
    requires ctx.calendarEvents.Some? && i <= |ctx.calendarEvents.value|
  {
    CalendarStart(t, ctx, fmt) + |t.eventsHeading| + |ConcatMap(ctx.calendarEvents.value[..i], EventRenderer(fmt))|
  }

  /** Where the line of message `i` begins. */
  function MessageStart(t: Template, history: seq<Message>, ctx: MemoryContext, fmt: Formatters, i: nat): nat
    requires i <= |history|
  {
    HistoryStart(t, ctx, fmt) + |t.historyHeading| + |ConcatMap(history[..i], HistoryLine)|
  }

  /** The calendar part stands where the facts part ends. */
  lemma CalendarPlaced(t: Template, prompt: string, history: seq<Message>, ctx: MemoryContext, fmt: Formatters)
    ensures At(PromptWith(t, prompt, history, ctx, fmt), CalendarStart(t, ctx, fmt), CalendarSection(t, ctx, fmt))
  {
    var h, p, f, c, hs, q := Header(ctx, fmt, t), PrefsSection(t, ctx), FactsSection(t, ctx), CalendarSection(t, ctx, fmt), HistorySection(t, history), QuestionPart(t, prompt);
    Regroup6(h, p, f, c, hs, q);
    AtMiddle(h + p + f, c, hs + q);
  }

  /** With no events, or an empty list, the prompt carries the no-events line where the
      calendar part goes. */
  lemma NoEventsStatus(t: Template, prompt: string, history: seq<Message>, ctx: MemoryContext, fmt: Formatters)
    requires ctx.calendarEvents.None? || ctx.calendarEvents.value == []
    ensures At(PromptWith(t, prompt, history, ctx, fmt), CalendarStart(t, ctx, fmt), t.noEvents + "\n\n")
  {
    CalendarPlaced(t, prompt, history, ctx, fmt);
  }

  /** With at least one event, each event's lines stand in the prompt in list order: event
      `i`'s lines start where event `i - 1`'s lines end. */
  lemma EventsListed(t: Template, prompt: string, history: seq<Message>, ctx: MemoryContext, fmt: Formatters, i: nat)
    requires ctx.calendarEvents.Some? && i < |ctx.calendarEvents.value|
    ensures At(PromptWith(t, prompt, history, ctx, fmt), EventStart(t, ctx, fmt, i), EventLines(ctx.calendarEvents.value[i], fmt))
    ensures EventStart(t, ctx, fmt, i + 1) == EventStart(t, ctx, fmt, i) + |EventLines(ctx.calendarEvents.value[i], fmt)|
  {
    var h, p, f, c, hs, q := Header(ctx, fmt, t), PrefsSection(t, ctx), FactsSection(t, ctx), CalendarSection(t, ctx, fmt), HistorySection(t, history), QuestionPart(t, prompt);
    var events := ctx.calendarEvents.value;
    Regroup6(h, p, f, c, hs, q);
    assert c == t.eventsHeading + ConcatMap(events, EventRenderer(fmt)) + "\n";
    assert EventRenderer(fmt)(events[i]) == EventLines(events[i], fmt);
    ConcatMapPlacedIn(h + p + f, t.eventsHeading, events, EventRenderer(fmt), "\n", hs + q, i);
  }

  /** With at least one preference, each `- key: value` line stands in the prompt in order. */
  lemma PrefsListed(t: Template, prompt: string, history: seq<Message>, ctx: MemoryContext, fmt: Formatters, i: nat)
    requires ctx.userPreferences.Some? && i < |ctx.userPreferences.value|
    ensures At(PromptWith(t, prompt, history, ctx, fmt), PrefStart(t, ctx, fmt, i), PrefLine(ctx.userPreferences.value[i]))
    ensures PrefStart(t, ctx, fmt, i + 1) == PrefStart(t, ctx, fmt, i) + |PrefLine(ctx.userPreferences.value[i])|
  {
    var h, p, f, c, hs, q := Header(ctx, fmt, t), PrefsSection(t, ctx), FactsSection(t, ctx), CalendarSection(t, ctx, fmt), HistorySection(t, history), QuestionPart(t, prompt);
    Regroup6(h, p, f, c, hs, q);
    ConcatMapPlacedIn(h, t.prefsHeading, ctx.userPreferences.value, PrefLine, "\n", f + c + hs + q, i);
  }

  /** With at least one fact, each `- text` line stands in the prompt in order. */
  lemma FactsListed(t: Template, prompt: string, history: seq<Message>, ctx: MemoryContext, fmt: Formatters, i: nat)
    requires ctx.recentFacts.Some? && i < |ctx.recentFacts.value|
    ensures At(PromptWith(t, prompt, history, ctx, fmt), FactStart(t, ctx, fmt, i), FactLine(ctx.recentFacts.value[i]))
    ensures FactStart(t, ctx, fmt, i + 1) == FactStart(t, ctx, fmt, i) + |FactLine(ctx.recentFacts.value[i])|
  {
    var h, p, f, c, hs, q := Header(ctx, fmt, t), PrefsSection(t, ctx), FactsSection(t, ctx), CalendarSection(t, ctx, fmt), HistorySection(t, history), QuestionPart(t, prompt);
    Regroup6(h, p, f, c, hs, q);
    ConcatMapPlacedIn(h + p, t.factsHeading, ctx.recentFacts.value, FactLine, "\n", c + hs + q, i);
  }

  /** With a non-empty history, each message's `Human:` or `Jarvis:` line stands in the
      prompt in order. */
  lemma HistoryListed(t: Template, prompt: string, history: seq<Message>, ctx: MemoryContext, fmt: Formatters, i: nat)
    requires i < |history|
    ensures At(PromptWith(t, prompt, history, ctx, fmt), MessageStart(t, history, ctx, fmt, i), HistoryLine(history[i]))
    ensures MessageStart(t, history, ctx, fmt, i + 1) == MessageStart(t, history, ctx, fmt, i) + |HistoryLine(history[i])|
  {
    var h, p, f, c, hs, q := Header(ctx, fmt, t), PrefsSection(t, ctx), FactsSection(t, ctx), CalendarSection(t, ctx, fmt), HistorySection(t, history), QuestionPart(t, prompt);
    ConcatMapPlacedIn(h + p + f + c, t.historyHeading, history, HistoryLine, "\n", q, i);
  }

  /** The preferences block and the conversation block are there exactly when there is
      something to list; the facts block likewise. */
  lemma SectionsOnlyWhenPresent(t: Template, history: seq<Message>, ctx: MemoryContext)
    requires t.prefsHeading != [] && t.factsHeading != [] && t.historyHeading != []
    ensures PrefsSection(t, ctx) == [] <==> ctx.userPreferences.None? || ctx.userPreferences.value == []
    ensures FactsSection(t, ctx) == [] <==> ctx.recentFacts.None? || ctx.recentFacts.value == []
    ensures HistorySection(t, history) == [] <==> history == []
  {
  }

  /** The prompt always ends with the question and the closing instructions. */
  lemma EndsWithQuestion(t: Template, prompt: string, history: seq<Message>, ctx: MemoryContext, fmt: Formatters)
    ensures EndsWith(PromptWith(t, prompt, history, ctx, fmt), t.questionLabel + prompt + t.closing)
  {
    EndsWithAppend(Header(ctx, fmt, t) + PrefsSection(t, ctx) + FactsSection(t, ctx) + CalendarSection(t, ctx, fmt) + HistorySection(t, history), QuestionPart(t, prompt));
  }
}
