/**
 * `generateResponse`: the system prompt goes to the model, the reply is cleaned of HTML,
 * its function-call blocks are extracted, and the caller receives either the rendered
 * HTML alone or the rendered visible text together with the calls.
 */
module GeminiService {
  import opened Wrappers
  import opened Strings
  import opened DataModel
  import opened PromptComposer
  import opened HtmlCleanup
  import opened FunctionCalls

  /** What `generateResponse` resolves to: the HTML string alone when the reply holds no
      call (the backward-compatible shape), or the object carrying the rendered visible
      text and the calls. */
  datatype Reply = Html(html: string) | WithCalls(response: string, functionCalls: seq<Call>)

  /** The services the method calls but whose behaviour is not specified here: the model's
      `generateContent` followed by `response.text()` (a failure is the error it throws),
      markdown-it's `render`, and `JSON.parse`. */
  datatype Services = Services(
    generate: string -> Result<string, string>,
    render: string -> string,
    decode: string -> Option<Call>)

  /** The reply for a cleaned markdown text. */
  function Shape(markdown: string, render: string -> string, decode: string -> Option<Call>): Reply
  {
    var calls := ExtractedCalls(markdown, decode);
    if |calls| > 0 then WithCalls(render(VisibleText(markdown)), calls) else Html(render(markdown))
  }

  /** What `generateResponse` resolves to once the system prompt is built, or the error
      it rethrows. */
  function Answer(systemPrompt: string, svc: Services): Result<Reply, string>
  {
    match svc.generate(systemPrompt)
    case Failure(e) => Failure(e)
    case Success(raw) => Success(Shape(Clean(raw), svc.render, svc.decode))
  }

  /** `generateResponse(prompt, conversationHistory, memoryContext)`. */
  method GenerateResponse(prompt: string, history: seq<Message>, ctx: MemoryContext, fmt: Formatters, svc: Services)
    returns (r: Result<Reply, string>)
    ensures r == Answer(SystemPrompt(prompt, history, ctx, fmt), svc)
  {
    var systemPrompt := ComposeSystemPrompt(prompt, history, ctx, fmt);
    r := AnswerPrompt(systemPrompt, svc);
  }

  /** The part of `generateResponse` after the prompt is built: ask the model, clean its
      reply, render it, and extract the calls. */
  method AnswerPrompt(systemPrompt: string, svc: Services) returns (r: Result<Reply, string>)
    ensures r == Answer(systemPrompt, svc)
  {
    var result := svc.generate(systemPrompt);
    if result.Failure? {
      return Failure(result.error);
    }
    var markdownText := Clean(result.value);
    var htmlText := svc.render(markdownText);
    var response, functionCalls := ParseFunctionCalls(markdownText, svc.decode);
    if |functionCalls| > 0 {
      r := Success(WithCalls(svc.render(response), functionCalls));
    } else {
      r := Success(Html(htmlText));
    }
  }

  /** A text without an opening call tag is answered with its rendering, untouched. */
  lemma PlainWithoutCallTag(markdown: string, render: string -> string, decode: string -> Option<Call>)
    requires !Contains(markdown, OpenTag)
    ensures Shape(markdown, render, decode) == Html(render(markdown))
  {
    NoOpenTag(markdown, decode);
  }

  /** The object shape is chosen exactly when at least one payload decodes; it then carries
      at most one call per block, and one per block in text order when every payload
      decodes; and the text it shows has the blocks removed. */
  lemma CallsShape(markdown: string, render: string -> string, decode: string -> Option<Call>)
    ensures Shape(markdown, render, decode).WithCalls? <==> ExtractedCalls(markdown, decode) != []
    ensures Shape(markdown, render, decode).WithCalls? ==>
      && Contains(markdown, OpenTag)
      && Shape(markdown, render, decode).response == render(VisibleText(markdown))
      && |Shape(markdown, render, decode).functionCalls| <= |AllBlocks(markdown)|
    ensures (forall k :: 0 <= k < |AllBlocks(markdown)| ==> decode(Trim(Payload(markdown, AllBlocks(markdown)[k]))).Some?)
            && AllBlocks(markdown) != [] ==>
      && Shape(markdown, render, decode).WithCalls?
      && |Shape(markdown, render, decode).functionCalls| == |AllBlocks(markdown)|
      && forall k :: 0 <= k < |AllBlocks(markdown)| ==>
           Shape(markdown, render, decode).functionCalls[k] == decode(Trim(Payload(markdown, AllBlocks(markdown)[k]))).value
  {
    CallsPerBlock(markdown, decode);
    if !Contains(markdown, OpenTag) {
      NoOpenTag(markdown, decode);
    }
  }

  /** A model reply with no `<` passes the cleanup unchanged, so its calls and its visible
      text are those of the reply itself; with no opening call tag either, the caller gets
      the rendering of the reply as the model wrote it. A model error is rethrown as is. */
  lemma TaglessReply(systemPrompt: string, svc: Services)
    ensures svc.generate(systemPrompt).Failure? ==> Answer(systemPrompt, svc) == Failure(svc.generate(systemPrompt).error)
    ensures svc.generate(systemPrompt).Success? && Lacks(svc.generate(systemPrompt).value, '<') ==>
      Answer(systemPrompt, svc) == Success(Shape(svc.generate(systemPrompt).value, svc.render, svc.decode))
    ensures svc.generate(systemPrompt).Success? && Lacks(svc.generate(systemPrompt).value, '<')
            && !Contains(svc.generate(systemPrompt).value, OpenTag) ==>
      Answer(systemPrompt, svc) == Success(Html(svc.render(svc.generate(systemPrompt).value)))
  {
    if svc.generate(systemPrompt).Success? && Lacks(svc.generate(systemPrompt).value, '<') {
      var raw := svc.generate(systemPrompt).value;
      CleanWithoutTags(raw);
      if !Contains(raw, OpenTag) {
        PlainWithoutCallTag(raw, svc.render, svc.decode);
      }
    }
  }
}
