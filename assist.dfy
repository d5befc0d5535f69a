/**
  The `/prompt-assist` handler of the assist backend: the mode and
  target-model lookup tables, `build_prompt`, and `assist` with its optional
  example step and its essential rewrite step, both through the retry policy.
  The model name (the `MODEL` environment variable) is a parameter.
 */
module Assist {
  import opened Wrappers
  import opened Text
  import opened Llm
  import opened RetryPolicy
  import Fences

  datatype Mode = Rewrite | Shorten | Lengthen | Casual | Formal

  datatype TargetModel = Gpt4o | Claude | Gemini | Mistral | Llama3

  /** `AssistRequest`, with its defaults. */
  datatype AssistRequest = AssistRequest(
    prompt: string,
    mode: Mode := Rewrite,
    targetModel: TargetModel := Gpt4o,
    context: Option<seq<string>> := None,
    synthExamples: bool := false)

  const PromptAssist :=
    "You are PrettyPrompt, the world’s leading prompt‐engineering assistant.  \n"
    + "When given a user’s raw prompt, produce a single, final rewritten prompt that is:  \n"
    + "• Clear and unambiguous  \n"
    + "• Structured for optimal LLM performance (use headings, numbered steps, bullets where helpful)  \n"
    + "• True to the user’s original intent, tone, and constraints  \n"
    + "\n"
    + "Return **only** the rewritten prompt text—no explanations, no examples, no markdown fences, no extra whitespace."

  /** `MODE_INSTRUCTIONS[mode]`. */
  function Instruction(mode: Mode): string {
    match mode
    case Rewrite => InstructionRewrite
    case Shorten => InstructionShorten
    case Lengthen => InstructionLengthen
    case Casual => InstructionCasual
    case Formal => InstructionFormal
  }

  /** `GUIDES[target_model]`. */
  function Guide(target: TargetModel): string {
    match target
    case Gpt4o => GuideGpt4o
    case Claude => GuideClaude
    case Gemini => GuideGemini
    case Mistral => GuideMistral
    case Llama3 => GuideLlama3
  }

  /**
    The module's text tables: `PROMPT_ASSIST`, `MODE_INSTRUCTIONS` and
    `GUIDES`. The functions below take them as a value, so what is proved
    about the handler holds whatever the texts are; `Source` holds the texts
    of the source.
   */
  datatype Tables = Tables(system: string, instruction: Mode -> string, guide: TargetModel -> string)

  const Source := Tables(PromptAssist, Instruction, Guide)

  const InstructionRewrite :=
    "Rewrite the prompt to be maximally clear, specific, and well-structured for an advanced LLM."

  const InstructionShorten :=
    "Condense the prompt to its essential elements without losing meaning or required details. Reduce the length of the prompt than the original prompt"

  const InstructionLengthen :=
    "Expand the prompt with concrete details, examples, or clarifications to ensure completeness."

  const InstructionCasual :=
    "Rephrase the prompt in a relaxed, conversational tone while preserving all constraints."

  const InstructionFormal :=
    "Rephrase the prompt in a professional, formal style, using full sentences and precise vocabulary."

  const GuideGpt4o :=
    "• Use a single SYSTEM message summarizing the overall objective.\n"
    + "• Include a brief context line if needed.\n"
    + "• Present the main actions as a numbered list and constraints as bullet points.\n"
    + "• Avoid any “User:” or “Assistant:” labels.\n"
    + "• Keep the total prompt under 1500 tokens.\n"
    + "• Do not add examples unless explicitly requested."

  const GuideClaude :=
    "• Start with “Assistant:” followed immediately by the rewritten prompt.\n"
    + "• Use ### headings to separate sections, e.g.:\n"
    + "  ### Prompt\n"
    + "  ### Constraints\n"
    + "  ### Context\n"
    + "• Never wrap in code fences or markdown blocks.\n"
    + "• Maintain a warm, explanatory tone.\n"
    + "• Return only the final prompt text—no closing remarks."

  const GuideGemini :=
    "• Omit SYSTEM messages; output the prompt directly.\n"
    + "• Use “### Instruction:” for the task and “### Context:” for background.\n"
    + "• Add a “### Constraints:” section with each constraint as a bullet.\n"
    + "• Keep language concise and directive.\n"
    + "• Do not include any meta-commentary or salutations."

  const GuideMistral :=
    "• Use one clear SYSTEM message to frame the rewrite goal.\n"
    + "• Structure the prompt in three sections:\n"
    + "  1) Task Description\n"
    + "  2) Detailed Instructions (numbered)\n"
    + "  3) Constraints List (bullets)\n"
    + "• Ensure total length ≤1500 tokens.\n"
    + "• Do not insert examples or extra narrative."

  const GuideLlama3 :=
    "• Begin with a SYSTEM message stating the purpose.\n"
    + "• Follow with a USER message formatted as:\n"
    + "  1) Task Description\n"
    + "  2) Supporting Details\n"
    + "  3) Constraints\n"
    + "• Use precise, concise language.\n"
    + "• Keep the prompt under 1500 tokens.\n"
    + "• Avoid redundant or vague phrasing."

  /** The f-string of `build_prompt`, lines indented by four spaces as in the source. */
  function Skeleton(instruction: string, guide: string, base: string): string {
    instruction
    + " the original prompt to be maximally clear, specific, and well-structured for an advanced LLM.\n"
    + "\n    ### Target model rules\n    " + guide
    + "\n\n    ### Original prompt\n    " + base
    + "\n\n    ### Rewritten prompt\n    "
  }

  const ContextHeader := "\n\n--- Conversation context ---\n"

  /** `xs[-3:]`. */
  function LastThree<T>(xs: seq<T>): (r: seq<T>)
    ensures |r| == if |xs| < 3 then |xs| else 3
    ensures r == xs[|xs| - |r|..]
  {
    if |xs| <= 3 then xs else xs[|xs| - 3..]
  }

  /**
    The context block: empty unless the context is present and non-empty,
    then the header and the last three entries joined by newlines.
   */
  function ContextBlock(context: Option<seq<string>>): (b: string)
    ensures b == "" <==> context.None? || context.value == []
    ensures b != "" ==> StartsWith(b, ContextHeader)
  {
    if context.Some? && context.value != [] then ContextHeader + Join(LastThree(context.value), "\n")
    else ""
  }

  /** `build_prompt(base, req)`. */
  function BuildPrompt(t: Tables, base: string, req: AssistRequest): string {
    Skeleton(t.instruction(req.mode), t.guide(req.targetModel), base) + ContextBlock(req.context)
  }

  /** Entries older than the last three never reach the model. */
  lemma OlderContextIgnored(older: seq<string>, recent: seq<string>)
    requires |recent| >= 3
    ensures ContextBlock(Some(older + recent)) == ContextBlock(Some(recent))
  {
    var all := older + recent;
    assert all[|all| - 3..] == recent[|recent| - 3..];
  }

  const ExampleSystem := "Generate ONE realistic input→output pair illustrating the prompt below."

  /** The request of the example step. */
  function ExampleRequest(model: string, req: AssistRequest): Request {
    Chat(model, 0.5, ExampleSystem, req.prompt)
  }

  /** `f"{req.prompt}\n\n### Example\n{fewshot}"`. */
  function WithExample(prompt: string, fewshot: string): string {
    prompt + "\n\n### Example\n" + fewshot
  }

  /** The user message of the rewrite step: `build_prompt` plus the context block once more. */
  function UserContent(t: Tables, base: string, req: AssistRequest): string {
    BuildPrompt(t, base, req) + ContextBlock(req.context)
  }

  function RewriteRequest(t: Tables, model: string, base: string, req: AssistRequest): Request {
    Chat(model, 0.3, t.system, UserContent(t, base, req))
  }

  const Unavailable := "Upstream model service is unavailable; please try again shortly."

  /** What `assist` returns or raises. */
  datatype AssistResult =
    | Assisted(prompt: string)
    | HttpError(status: nat, detail: string)
    | Raised(error: Outcome)

  /**
    One run of `assist`: its result, the number of model calls and the sleeps
    made, and the rewrite request when the handler got that far.
   */
  datatype AssistRun = AssistRun(result: AssistResult, calls: nat, sleeps: seq<nat>, rewrite: Option<Request>)

  /** The example step, when `synth_examples` is set; it makes calls 0, 1, ... */
  function ExampleStep(up: Upstream, model: string, req: AssistRequest): Option<Attempted> {
    if req.synthExamples then Some(Retry(up, 0, ExampleRequest(model, req))) else None
  }

  /** The base prompt after the example step: the prompt, with the example when one was made. */
  function BasePrompt(req: AssistRequest, example: Option<Attempted>): string {
    if example.Some? && example.value.outcome.Completion? then
      WithExample(req.prompt, PyStrip(example.value.outcome.content))
    else req.prompt
  }

  /** What the handler makes of the rewrite step's outcome. */
  function RewriteResult(o: Outcome): AssistResult {
    match o
    case Completion(c) => Assisted(PyStrip(c))
    case InternalServerError(_) => HttpError(503, Unavailable)
    case OtherError(_) => Raised(o)
  }

  /** The rewrite step, from call `start` on, after the sleeps `before`. */
  function RewriteStep(up: Upstream, start: nat, before: seq<nat>, rw: Request): (r: AssistRun)
    ensures r.rewrite == Some(rw)
    ensures start + 1 <= r.calls <= start + MaxAttempts
    ensures r.sleeps == before + Backoff(r.calls - start - 1)
  {
    var main := Retry(up, start, rw);
    AssistRun(RewriteResult(main.outcome), start + main.calls, before + main.sleeps, Some(rw))
  }

  /** The example step raised something other than a server error: `assist` raises it too. */
  predicate ExampleRaised(example: Option<Attempted>) {
    example.Some? && example.value.outcome.OtherError?
  }

  /** The number of the rewrite step's first call: the example step's calls come first. */
  function RewriteStart(example: Option<Attempted>): nat {
    if example.Some? then example.value.calls else 0
  }

  /** The sleeps made before the rewrite step. */
  function SleptBefore(example: Option<Attempted>): seq<nat> {
    if example.Some? then example.value.sleeps else []
  }

  /** `assist(req)`: the example step, then the rewrite step from the next call number on. */
  function AssistSpec(up: Upstream, t: Tables, model: string, req: AssistRequest): AssistRun {
    var example := ExampleStep(up, model, req);
    if ExampleRaised(example) then
      AssistRun(Raised(example.value.outcome), example.value.calls, example.value.sleeps, None)
    else
      RewriteStep(up, RewriteStart(example), SleptBefore(example), RewriteRequest(t, model, BasePrompt(req, example), req))
  }

  /** `assist(req)`, step by step: the example step may reassign `base_prompt`, then the rewrite step. */
  method Assist(up: Upstream, t: Tables, model: string, req: AssistRequest) returns (run: AssistRun)
    ensures run == AssistSpec(up, t, model, req)
  {
    var example, basePrompt := ExamplePhase(up, model, req);
    var calls, sleeps := 0, [];
    if example.Some? {
      if example.value.outcome.OtherError? {
        return AssistRun(Raised(example.value.outcome), example.value.calls, example.value.sleeps, None);
      }
      calls, sleeps := example.value.calls, example.value.sleeps;
    }
    assert !ExampleRaised(example) && calls == RewriteStart(example) && sleeps == SleptBefore(example);
    var sent := RewriteMessages(t, model, basePrompt, req);
    run := SendRewrite(up, calls, sleeps, sent);
  }

  /**
    The `if req.synth_examples` block: on a completion `base_prompt` becomes
    the prompt with the stripped example; on a server error that survived the
    retries it stays the prompt; any other error is for the caller to raise.
   */
  method ExamplePhase(up: Upstream, model: string, req: AssistRequest) returns (example: Option<Attempted>, basePrompt: string)
    ensures example == ExampleStep(up, model, req)
    ensures basePrompt == BasePrompt(req, example)
  {
    basePrompt := req.prompt;
    example := None;
    if req.synthExamples {
      var fewshotResp := CallWithRetry(up, 0, ExampleRequest(model, req));
      example := Some(fewshotResp);
      match fewshotResp.outcome {
        case Completion(c) =>
          var fewshot := PyStrip(c);
          basePrompt := WithExample(req.prompt, fewshot);
        case InternalServerError(_) =>
          basePrompt := req.prompt;
        case OtherError(_) =>
      }
    }
  }

  /** The rewrite request: `messages[1]` gets the context block appended in place. */
  method RewriteMessages(t: Tables, model: string, basePrompt: string, req: AssistRequest) returns (sent: Request)
    ensures sent == RewriteRequest(t, model, basePrompt, req)
  {
    var messages := [Message(System, t.system), Message(User, BuildPrompt(t, basePrompt, req))];
    if req.context.Some? && req.context.value != [] {
      var ctx := ContextHeader + Join(LastThree(req.context.value), "\n");
      assert ctx == ContextBlock(req.context);
      messages := messages[1 := Message(User, messages[1].content + ctx)];
    } else {
      assert BuildPrompt(t, basePrompt, req) + "" == BuildPrompt(t, basePrompt, req);
    }
    sent := Request(model, 0.3, messages);
  }

  /** The `try` around the rewrite call: a server error that survives the retries becomes HTTP 503. */
  method SendRewrite(up: Upstream, start: nat, before: seq<nat>, sent: Request) returns (run: AssistRun)
    ensures run == RewriteStep(up, start, before, sent)
  {
    var resp := CallWithRetry(up, start, sent);
    var result: AssistResult;
    match resp.outcome {
      case Completion(c) =>
        var text := PyStrip(c);
        result := Assisted(text);
      case InternalServerError(_) =>
        result := HttpError(503, Unavailable);
      case OtherError(_) =>
        result := Raised(resp.outcome);
    }
    run := AssistRun(result, start + resp.calls, before + resp.sleeps, Some(sent));
  }

  // ---------------------------------------------------------------------
  // Properties of `assist`, stated against the model service.

  /**
    Without an example (none asked for, or the example step gave up after
    three server errors) the rewrite step is reached with the plain prompt.
   */
  lemma ExampleFallsBack(up: Upstream, t: Tables, model: string, req: AssistRequest)
    requires !req.synthExamples || ThreeServerErrors(up, 0, ExampleRequest(model, req))
    ensures AssistSpec(up, t, model, req).rewrite == Some(RewriteRequest(t, model, req.prompt, req))
  {
    var example := ExampleStep(up, model, req);
    if req.synthExamples {
      ExhaustedRetry(up, 0, ExampleRequest(model, req));
    }
    assert !ExampleRaised(example) && BasePrompt(req, example) == req.prompt;
  }

  /** A successful example is appended, stripped, under an `### Example` heading. */
  lemma ExampleIsUsed(up: Upstream, t: Tables, model: string, req: AssistRequest, c: string)
    requires req.synthExamples && up(0, ExampleRequest(model, req)) == Completion(c)
    ensures AssistSpec(up, t, model, req).rewrite
            == Some(RewriteRequest(t, model, WithExample(req.prompt, PyStrip(c)), req))
    ensures AssistSpec(up, t, model, req).calls >= 2
  {
    ExampleCompletes(up, model, req, c);
    var example := ExampleStep(up, model, req);
    assert !ExampleRaised(example) && RewriteStart(example) == 1;
  }

  lemma ExampleCompletes(up: Upstream, model: string, req: AssistRequest, c: string)
    requires req.synthExamples && up(0, ExampleRequest(model, req)) == Completion(c)
    ensures var example := ExampleStep(up, model, req);
            && example == Some(Attempted(Completion(c), 1, []))
            && BasePrompt(req, example) == WithExample(req.prompt, PyStrip(c))
  {
    NoRetryWithoutServerError(up, 0, ExampleRequest(model, req));
  }

  lemma RewriteStepUnavailable(up: Upstream, start: nat, before: seq<nat>, rw: Request)
    ensures RewriteStep(up, start, before, rw).result == HttpError(503, Unavailable)
            <==> ThreeServerErrors(up, start, rw)
  {
    GivesUpIffThreeServerErrors(up, start, rw);
  }

  /**
    The handler answers 503 exactly when the rewrite step was reached and
    its three calls all failed with a server error.
   */
  lemma UnavailableIffRewriteExhausted(up: Upstream, t: Tables, model: string, req: AssistRequest)
    ensures var run := AssistSpec(up, t, model, req);
            run.result == HttpError(503, Unavailable) <==>
              run.rewrite.Some? && ThreeServerErrors(up, RewriteStart(ExampleStep(up, model, req)), run.rewrite.value)
  {
    var example := ExampleStep(up, model, req);
    if !ExampleRaised(example) {
      RewriteStepUnavailable(up, RewriteStart(example), SleptBefore(example),
                             RewriteRequest(t, model, BasePrompt(req, example), req));
    }
  }

  /**
    A successful rewrite step that started at call `start`: the answer is the
    stripped content of the completion of its last call, one of the next three.
   */
  predicate SucceededFrom(up: Upstream, start: nat, run: AssistRun) {
    && run.result.Assisted?
    && run.rewrite.Some?
    && start + 1 <= run.calls <= start + 3
    && up(run.calls - 1, run.rewrite.value).Completion?
    && run.result.prompt == PyStrip(up(run.calls - 1, run.rewrite.value).content)
    && PyStrip(run.result.prompt) == run.result.prompt
  }

  lemma RewriteStepSuccess(up: Upstream, start: nat, before: seq<nat>, rw: Request)
    ensures var run := RewriteStep(up, start, before, rw);
            run.result.Assisted? ==> SucceededFrom(up, start, run)
  {
    var main := Retry(up, start, rw);
    var run := RewriteStep(up, start, before, rw);
    assert run.calls == start + main.calls && run.result == RewriteResult(main.outcome);
    if run.result.Assisted? {
      assert main.outcome.Completion?;
      assert up(run.calls - 1, rw) == main.outcome;
      Fences.StripIsIdempotent(main.outcome.content);
    }
  }

  /** On success the answer is the stripped completion of one of the rewrite step's calls. */
  lemma SuccessIsStrippedCompletion(up: Upstream, t: Tables, model: string, req: AssistRequest)
    ensures var run := AssistSpec(up, t, model, req);
            run.result.Assisted? ==> SucceededFrom(up, RewriteStart(ExampleStep(up, model, req)), run)
  {
    var example := ExampleStep(up, model, req);
    if !ExampleRaised(example) {
      RewriteStepSuccess(up, RewriteStart(example), SleptBefore(example),
                         RewriteRequest(t, model, BasePrompt(req, example), req));
    }
  }

  /**
    The user message carries the context block twice: once from
    `build_prompt` and once appended by `assist`; the block is empty exactly
    when there is no context.
   */
  lemma ContextBlockTwice(t: Tables, base: string, req: AssistRequest)
    ensures var b := ContextBlock(req.context);
            && UserContent(t, base, req) == Skeleton(t.instruction(req.mode), t.guide(req.targetModel), base) + b + b
            && (b == "" <==> req.context.None? || req.context.value == [])
  {
    var sk := Skeleton(t.instruction(req.mode), t.guide(req.targetModel), base);
    assert BuildPrompt(t, base, req) == sk + ContextBlock(req.context);
  }
}
