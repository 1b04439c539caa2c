/**
 * The FastAPI backend: the request body, the prompt built for each editing
 * action, and the POST /api/ai handler that validates the text, asks the
 * language model and shapes the reply.
 */
module Server {
  import opened Wrappers
  import opened PyString

  /** Model used when the request body carries no `model` field. */
  const DefaultModel: string := "gemini-2.5-flash-lite"

  /** The JSON body of POST /api/ai. `model` is None when the body holds
      `"model": null`, and Some(DefaultModel) when the field is absent. */
  datatype AIRequest = AIRequest(action: string, text: string, model: Option<string>)

  const RewriteInstruction: string := "Rewrite this text professionally and clearly:"
  const SummarizeInstruction: string := "Summarize this text in 3 short bullet points:"
  const GrammarInstruction: string := "Fix grammar and spelling mistakes in this text:"

  /** The blank line between an instruction and the user's text. */
  const Separator: string := "\n\n"

  /** The actions that get an instruction; every other action is accepted too. */
  predicate IsKnownAction(action: string) {
    action == "rewrite" || action == "summarize" || action == "grammar"
  }

  /** The instruction a known action puts in front of the text. */
  function Instruction(action: string): (instruction: string)
    requires IsKnownAction(action)
  {
    if action == "rewrite" then RewriteInstruction
    else if action == "summarize" then SummarizeInstruction
    else GrammarInstruction
  }

  /** `build_prompt`: a known action's instruction, a blank line, then the
      text; an unknown action leaves the text as it is. */
  function BuildPrompt(action: string, text: string): (prompt: string)
    ensures |text| <= |prompt| && prompt[|prompt| - |text|..] == text
    ensures IsKnownAction(action) ==>
      prompt[..|prompt| - |text|] == Instruction(action) + Separator
    ensures prompt == text <==> !IsKnownAction(action)
  {
    match action
    case "rewrite" => RewriteInstruction + Separator + text
    case "summarize" => SummarizeInstruction + Separator + text
    case "grammar" => GrammarInstruction + Separator + text
    case _ => text
  }

  /** For one text, different known actions give different prompts. */
  lemma KnownPromptsDistinct(action1: string, action2: string, text: string)
    requires IsKnownAction(action1) && IsKnownAction(action2) && action1 != action2
    ensures BuildPrompt(action1, text) != BuildPrompt(action2, text)
  {
    var i1, i2 := Instruction(action1), Instruction(action2);
    assert i1 != i2;
    if |i1| == |i2| {
      assert (i1 + Separator)[..|i1|] == i1;
      assert (i2 + Separator)[..|i2|] == i2;
    }
    assert i1 + Separator != i2 + Separator;
  }

  /** The text can be read back from the prompt of a known action: the
      prompt with the action's header removed. */
  lemma PromptRecoversText(action: string, text: string)
    requires IsKnownAction(action)
    ensures BuildPrompt(action, text)[|Instruction(action) + Separator|..] == text
  {
    var prompt := BuildPrompt(action, text);
    assert |prompt| - |text| == |Instruction(action) + Separator|;
  }

  /** Under one action, different texts give different prompts. */
  lemma BuildPromptInjective(action: string, text1: string, text2: string)
    requires BuildPrompt(action, text1) == BuildPrompt(action, text2)
    ensures text1 == text2
  {
    var p1, p2 := BuildPrompt(action, text1), BuildPrompt(action, text2);
    if IsKnownAction(action) {
      assert |p1| == |Instruction(action) + Separator| + |text1|;
      assert |p2| == |Instruction(action) + Separator| + |text2|;
    }
  }

  /** Because unknown actions are passed through, a prompt does not tell
      which action asked for it: any unknown action, on a crafted text,
      yields exactly the prompt of any known action. */
  lemma UnknownActionCanImitateKnown(action: string, known: string, text: string)
    requires !IsKnownAction(action) && IsKnownAction(known)
    ensures BuildPrompt(action, Instruction(known) + Separator + text) == BuildPrompt(known, text)
  {
  }

  /** What the language model call (`GenerativeModel(model).generate_content`
      and reading `response.text`) produced: a text or a raised exception. */
  datatype ModelReply = Generated(text: string) | Raised(message: string)

  /** The handler's answer: the JSON body {"result": ...} with status 200, or
      an HTTPException with its status and detail. */
  datatype Response = Ok(result: string) | HttpError(status: int, detail: string)

  const EmptyTextDetail: string := "Text cannot be empty"

  /** `ai_edit`. The model is a parameter: `generate(model, prompt)`. */
  function AiEdit(request: AIRequest, generate: (Option<string>, string) -> ModelReply): (response: Response)
    ensures response == HttpError(400, EmptyTextDetail) <==> AllSpace(request.text)
    ensures response.HttpError? ==> response.status == (if AllSpace(request.text) then 400 else 500)
    ensures response.Ok? ==> Trimmed(response.result)
  {
    var text := Strip(request.text);
    StripEmptyIff(request.text);
    if text == [] then
      HttpError(400, EmptyTextDetail)
    else
      match generate(request.model, BuildPrompt(request.action, text))
      case Generated(output) => Ok(Strip(output))
      case Raised(message) => HttpError(500, message)
  }

  /** A blank text is refused whatever the model would say: the model is
      never consulted. */
  lemma BlankTextNeverReachesModel(request: AIRequest, generate1: (Option<string>, string) -> ModelReply,
                                   generate2: (Option<string>, string) -> ModelReply)
    requires AllSpace(request.text)
    ensures AiEdit(request, generate1) == AiEdit(request, generate2) == HttpError(400, EmptyTextDetail)
  {
  }

  /** The model is asked about one prompt only: the one built from the
      stripped text with the requested action, sent to the requested model. */
  lemma ModelSeesStrippedPrompt(request: AIRequest, generate1: (Option<string>, string) -> ModelReply,
                                generate2: (Option<string>, string) -> ModelReply)
    requires var prompt := BuildPrompt(request.action, Strip(request.text));
             generate1(request.model, prompt) == generate2(request.model, prompt)
    ensures AiEdit(request, generate1) == AiEdit(request, generate2)
  {
  }

  /** Whitespace around the request text does not change the answer. */
  lemma SurroundingWhitespaceIgnored(action: string, text: string, model: Option<string>,
                                     p: string, q: string,
                                     generate: (Option<string>, string) -> ModelReply)
    requires AllSpace(p) && AllSpace(q)
    ensures AiEdit(AIRequest(action, p + (text + q), model), generate)
         == AiEdit(AIRequest(action, text, model), generate)
  {
    StripIgnoresPadding(p, text, q);
    SameStrippedTextSameAnswer(action, p + (text + q), text, model, generate);
  }

  /** The handler reads the text only through Strip. */
  lemma SameStrippedTextSameAnswer(action: string, text1: string, text2: string, model: Option<string>,
                                   generate: (Option<string>, string) -> ModelReply)
    requires Strip(text1) == Strip(text2)
    ensures AiEdit(AIRequest(action, text1, model), generate)
         == AiEdit(AIRequest(action, text2, model), generate)
  {
  }

  /** For a non-blank text the answer is the model's stripped output, or
      status 500 with the exception's message. */
  lemma AiEditAnswers(request: AIRequest, generate: (Option<string>, string) -> ModelReply)
    requires !AllSpace(request.text)
    ensures var reply := generate(request.model, BuildPrompt(request.action, Strip(request.text)));
            match reply
            case Generated(output) => AiEdit(request, generate) == Ok(Strip(output))
            case Raised(message) => AiEdit(request, generate) == HttpError(500, message)
  {
    StripEmptyIff(request.text);
  }
}
