/**
  The first backend ("Promptly Analyzer"): `analyze_prompt`,
  `suggest_improvements` and `rewrite_prompt`, each one chat call followed by
  fence removal and parsing, and the three endpoints that turn any exception
  into HTTP 500 with the exception's text. The model name (the `MODEL`
  environment variable) is a parameter; the model service, `json.loads` and
  the texts of pydantic's validation errors are oracles.
 */
module Analyzer {
  import opened Wrappers
  import opened Text
  import opened Json
  import opened Llm
  import Fences

  const SystemMessage :=
    "You are PrettyPrompt, an expert prompt-analysis agent.\n"
    + "For any prompt you receive, identify:\n"
    + "1. The main *intent* (short sentence).\n"
    + "2. Any *explicit constraints* (bullet phrases).\n"
    + "3. The *desired output format* if mentioned (e.g. “JSON”, “list”, “essay”, or “unspecified”).\n"
    + "4. The author’s *tone/style* (one word: “formal”, “casual”, “technical”, etc., or “unspecified”).\n"
    + "5. Up to 3 major *gaps* or ambiguities that might trip up an LLM (empty list if none).\n"
    + "\n"
    + "Return ONLY valid JSON exactly in this schema:\n"
    + "{\n"
    + "  \"intent\": \"...\",\n"
    + "  \"constraints\": [\"...\", ...] | [],\n"
    + "  \"desired_format\": \"...\",\n"
    + "  \"tone\": \"...\",\n"
    + "  \"gaps\": [\"...\", ...] | []\n"
    + "}\n"

  const SuggestionSystem :=
    "    You are Promptly, a prompt-improvement coach.\n"
    + "\n"
    + "    When given a raw prompt, produce 3-6 concise bullet suggestions that would\n"
    + "    * measurably improve* the prompt.  Focus on:\n"
    + "    • Clarity & specificity\n"
    + "    • Tone / audience match\n"
    + "    • Output-format hints\n"
    + "    • Edge-case coverage\n"
    + "    Return ONLY a JSON array of strings.  Do NOT wrap it in back-ticks.\n"
    + "    "

  const RewriteSystem :=
    "You are PrettyPrompt, a prompt-rewriting assistant.\n"
    + "\n"
    + "Rewrite the user’s prompt so it is clearer, more specific, and follows best\n"
    + "practice for large-language-model queries.  Preserve the user’s intent,\n"
    + "tone, and any critical constraints, but improve structure, add formatting\n"
    + "hints, and include examples if obviously beneficial.\n"
    + "\n"
    + "Return the *entire rewritten prompt* as raw text — **do not** wrap it in\n"
    + "Markdown fences or JSON.\n"

  /** `PromptAnalysis`; `None` stands for JSON `null`. */
  datatype PromptAnalysis = PromptAnalysis(
    intent: string,
    constraints: Option<seq<string>>,
    desiredFormat: Option<string>,
    tone: Option<string>,
    gaps: Option<seq<string>>)

  /**
    What `PromptAnalysis` accepts: an object with a string `intent` and the
    four other fields all present, each `null` or of its type (none has a
    default); other fields are ignored.
   */
  predicate IsPromptAnalysis(j: Json) {
    && j.JObj?
    && "intent" in j.fields && j.fields["intent"].JStr?
    && "constraints" in j.fields && IsNullableStringArray(j.fields["constraints"])
    && "desired_format" in j.fields && IsNullableString(j.fields["desired_format"])
    && "tone" in j.fields && IsNullableString(j.fields["tone"])
    && "gaps" in j.fields && IsNullableStringArray(j.fields["gaps"])
  }

  /** The JSON form of an optional string. */
  function NullableString(o: Option<string>): Json {
    if o.None? then JNull else JStr(o.value)
  }

  /** The JSON form of an optional list of strings. */
  function NullableStrings(o: Option<seq<string>>): Json {
    if o.None? then JNull else StringArray(o.value)
  }

  /** `a` is what the object `j` holds in its five fields. */
  predicate Describes(a: PromptAnalysis, j: Json) {
    && j.JObj?
    && "intent" in j.fields && j.fields["intent"] == JStr(a.intent)
    && "constraints" in j.fields && j.fields["constraints"] == NullableStrings(a.constraints)
    && "desired_format" in j.fields && j.fields["desired_format"] == NullableString(a.desiredFormat)
    && "tone" in j.fields && j.fields["tone"] == NullableString(a.tone)
    && "gaps" in j.fields && j.fields["gaps"] == NullableStrings(a.gaps)
  }

  function OptionString(j: Json): (o: Option<string>)
    requires IsNullableString(j)
    ensures NullableString(o) == j
  {
    if j.JNull? then None else Some(j.s)
  }

  function OptionStrings(j: Json): (o: Option<seq<string>>)
    requires IsNullableStringArray(j)
    ensures NullableStrings(o) == j
  {
    if j.JNull? then None
    else
      StringArrayOfStrings(j);
      Some(Strings(j))
  }

  /** The analysis a validated object holds. */
  function ToAnalysis(j: Json): (a: PromptAnalysis)
    requires IsPromptAnalysis(j)
    ensures Describes(a, j)
  {
    PromptAnalysis(
      j.fields["intent"].s,
      OptionStrings(j.fields["constraints"]),
      OptionString(j.fields["desired_format"]),
      OptionString(j.fields["tone"]),
      OptionStrings(j.fields["gaps"]))
  }

  /** A value that describes an analysis validates, and validating it gives back that analysis. */
  lemma DescribedIsValid(a: PromptAnalysis, j: Json)
    ensures Describes(a, j) ==> IsPromptAnalysis(j) && ToAnalysis(j) == a
  {
    if Describes(a, j) {
      NullableStringsInjective(a.constraints, ToAnalysis(j).constraints);
      NullableStringsInjective(a.gaps, ToAnalysis(j).gaps);
    }
  }

  lemma NullableStringsInjective(o: Option<seq<string>>, p: Option<seq<string>>)
    requires NullableStrings(o) == NullableStrings(p)
    ensures o == p
  {
    if o.Some? && p.Some? {
      assert Strings(NullableStrings(o)) == o.value;
    }
  }

  /** The message of the `ValueError` raised for a payload that does not validate. */
  function InvalidJsonMessage(reason: string, payload: string): (m: string)
    ensures StartsWith(m, "LLM returned invalid JSON: ")
    ensures EndsWith(m, payload)
  {
    "LLM returned invalid JSON: " + reason + "\nRaw:\n" + payload
  }

  /**
    `PromptAnalysis.model_validate_json(payload)`, with a failure re-raised
    as the `ValueError` above; `parse` decodes the text and `invalid` is the
    text of the `ValidationError` for a payload that does not validate.
   */
  function ValidateAnalysis(parse: Parser, invalid: string -> string, payload: string)
    : (r: Result<PromptAnalysis, string>)
    ensures r.Ok? <==> parse(payload).Ok? && IsPromptAnalysis(parse(payload).value)
    ensures r.Ok? ==> Describes(r.value, parse(payload).value)
    ensures r.Err? ==> r.error == InvalidJsonMessage(invalid(payload), payload)
  {
    match parse(payload)
    case Ok(j) =>
      if IsPromptAnalysis(j) then Ok(ToAnalysis(j))
      else Err(InvalidJsonMessage(invalid(payload), payload))
    case Err(_) => Err(InvalidJsonMessage(invalid(payload), payload))
  }

  function AnalyzeRequest(model: string, raw: string): Request {
    Chat(model, 0.2, SystemMessage, raw)
  }

  /** `analyze_prompt(raw_prompt)`: one call, fence removal, validation. */
  function AnalyzePrompt(up: Upstream, parse: Parser, invalid: string -> string, model: string, raw: string)
    : (r: Result<PromptAnalysis, string>)
    ensures var o := up(0, AnalyzeRequest(model, raw));
            && (!o.Completion? ==> r == Err(o.detail))
            && (o.Completion? ==> r == ValidateAnalysis(parse, invalid, Fences.StripFences(o.content)))
  {
    match up(0, AnalyzeRequest(model, raw))
    case Completion(payload) => ValidateAnalysis(parse, invalid, Fences.StripFences(payload))
    case InternalServerError(e) => Err(e)
    case OtherError(e) => Err(e)
  }

  /** A completion that does not open with a fence is validated exactly as it came. */
  lemma UnfencedAnalysisIsValidatedAsIs(up: Upstream, parse: Parser, invalid: string -> string, model: string, raw: string)
    requires up(0, AnalyzeRequest(model, raw)).Completion?
    requires !StartsWith(PyLStrip(up(0, AnalyzeRequest(model, raw)).content), Fences.Fence)
    ensures AnalyzePrompt(up, parse, invalid, model, raw)
         == ValidateAnalysis(parse, invalid, up(0, AnalyzeRequest(model, raw)).content)
  {
  }

  /** A fenced completion is validated as its stripped body. */
  lemma FencedAnalysisIsValidatedAsBody(up: Upstream, parse: Parser, invalid: string -> string, model: string, raw: string,
                                        tag: string, body: string)
    requires forall k :: 0 <= k < |tag| ==> IsWordChar(tag[k])
    requires up(0, AnalyzeRequest(model, raw)) == Completion(Fences.Fenced(tag, body))
    ensures AnalyzePrompt(up, parse, invalid, model, raw) == ValidateAnalysis(parse, invalid, PyStrip(body))
  {
    Fences.FencedRoundTrip(tag, body);
  }

  /** A rejected completion's error message carries the payload that was validated. */
  lemma AnalysisErrorShowsPayload(up: Upstream, parse: Parser, invalid: string -> string, model: string, raw: string)
    requires up(0, AnalyzeRequest(model, raw)).Completion?
    requires AnalyzePrompt(up, parse, invalid, model, raw).Err?
    ensures var p := Fences.StripFences(up(0, AnalyzeRequest(model, raw)).content);
            var e := AnalyzePrompt(up, parse, invalid, model, raw).error;
            StartsWith(e, "LLM returned invalid JSON: ") && EndsWith(e, p)
  {
  }

  /** `ImprovementSuggestions`. */
  datatype ImprovementSuggestions = ImprovementSuggestions(items: seq<string>)

  function SuggestRequest(model: string, raw: string): Request {
    Chat(model, 0.3, SuggestionSystem, raw)
  }

  /**
    `suggest_improvements(raw_prompt)`: one call, fence removal, `json.loads`,
    then `ImprovementSuggestions(items=...)`; `invalid` is the text of the
    `ValidationError` for a decoded value that is not a list of strings.
   */
  function SuggestImprovements(up: Upstream, parse: Parser, invalid: Json -> string, model: string, raw: string)
    : (r: Result<ImprovementSuggestions, string>)
    ensures var o := up(0, SuggestRequest(model, raw));
            && (!o.Completion? ==> r == Err(o.detail))
            && (o.Completion? ==>
                  var d := parse(Fences.StripFences(o.content));
                  && (r.Ok? <==> d.Ok? && IsStringArray(d.value))
                  && (r.Ok? ==> d.value == StringArray(r.value.items))
                  && (d.Err? ==> r == Err(d.error)))
  {
    match up(0, SuggestRequest(model, raw))
    case Completion(payload) =>
      (match parse(Fences.StripFences(payload))
       case Ok(j) =>
         if IsStringArray(j) then
           StringArrayOfStrings(j);
           Ok(ImprovementSuggestions(Strings(j)))
         else Err(invalid(j))
       case Err(e) => Err(e))
    case InternalServerError(e) => Err(e)
    case OtherError(e) => Err(e)
  }

  /** The suggestions are the decoded array's strings, unchanged and in order. */
  lemma SuggestionsAreTheArray(up: Upstream, parse: Parser, invalid: Json -> string, model: string, raw: string,
                               items: seq<string>)
    requires up(0, SuggestRequest(model, raw)).Completion?
    requires parse(Fences.StripFences(up(0, SuggestRequest(model, raw)).content)) == Ok(StringArray(items))
    ensures SuggestImprovements(up, parse, invalid, model, raw) == Ok(ImprovementSuggestions(items))
  {
    var r := SuggestImprovements(up, parse, invalid, model, raw);
    assert StringArray(r.value.items) == StringArray(items);
    assert Strings(StringArray(r.value.items)) == Strings(StringArray(items));
  }

  /** Index of the first newline at or after `i`, or `|t|` when there is none. */
  function NewlineFrom(t: string, i: nat): (j: nat)
    requires i <= |t|
    ensures i <= j <= |t|
    ensures forall k :: i <= k < j ==> t[k] != '\n'
    ensures j < |t| ==> t[j] == '\n'
    decreases |t| - i
  {
    if i == |t| || t[i] == '\n' then i else NewlineFrom(t, i + 1)
  }

  /**
    Python `re.sub(r"^```.*?\n|\n```$", "", t, flags=re.DOTALL)` on a text
    that opens with a fence: the first alternative removes the opening line
    through its first newline; after it, the second can only match a newline
    and fence that end the text or stand just before a final newline. With no
    newline in the text neither alternative matches anywhere.
   */
  function RemoveRewriteFence(t: string): (r: string)
    requires StartsWith(t, Fences.Fence)
  {
    var n := NewlineFrom(t, 3);
    if n == |t| then t
    else if EndsWith(t, "\n" + Fences.Fence) && |t| - 4 >= n + 1 then t[n + 1..|t| - 4]
    else if EndsWith(t, "\n" + Fences.Fence + "\n") && |t| - 5 >= n + 1 then t[n + 1..|t| - 5] + "\n"
    else t[n + 1..]
  }

  /** The post-processing of `rewrite_prompt`: strip, remove a fence if one opens the text, strip. */
  function RewriteFences(content: string): (r: string)
    ensures PyStrip(r) == r
    ensures !StartsWith(PyStrip(content), Fences.Fence) ==> r == PyStrip(content)
  {
    var t := PyStrip(content);
    Fences.StripIsIdempotent(content);
    if StartsWith(t, Fences.Fence) then
      Fences.StripIsIdempotent(RemoveRewriteFence(t));
      PyStrip(RemoveRewriteFence(t))
    else t
  }

  /**
    Removing a fence whose opening line carries any text without a newline
    recovers the stripped body.
   */
  lemma RewriteFenceRoundTrip(tag: string, body: string)
    requires forall k :: 0 <= k < |tag| ==> tag[k] != '\n'
    ensures RewriteFences(Fences.Fenced(tag, body)) == PyStrip(body)
  {
    Fences.FencedIsStripped(tag, body);
    FencedRewriteMarks(tag, body);
  }

  /** On a fenced text the removal leaves exactly the body. */
  lemma FencedRewriteMarks(tag: string, body: string)
    requires forall k :: 0 <= k < |tag| ==> tag[k] != '\n'
    ensures StartsWith(Fences.Fenced(tag, body), Fences.Fence)
    ensures RemoveRewriteFence(Fences.Fenced(tag, body)) == body
  {
    var s := Fences.Fenced(tag, body);
    Fences.FencedShape(tag, body);
    FencedOpeningLine(s, tag, "\n" + body + "\n" + Fences.Fence);
    FencedClosing(s, tag, body);
  }

  /** The opening line of `Fence + tag + rest` ends where `rest` starts with its newline. */
  lemma FencedOpeningLine(s: string, tag: string, rest: string)
    requires forall k :: 0 <= k < |tag| ==> tag[k] != '\n'
    requires |rest| > 0 && rest[0] == '\n'
    requires s == Fences.Fence + tag + rest
    ensures NewlineFrom(s, 3) == 3 + |tag|
  {
    assert s[3 + |tag|] == rest[0];
    forall k | 3 <= k < 3 + |tag|
      ensures s[k] != '\n'
    {
      assert s[k] == tag[k - 3];
    }
  }

  /** A fenced text ends with a newline and a fence, and the body lies between. */
  lemma FencedClosing(s: string, tag: string, body: string)
    requires s == Fences.Fenced(tag, body)
    ensures EndsWith(s, "\n" + Fences.Fence)
    ensures s[4 + |tag|..|s| - 4] == body
  {
    Fences.FencedShape(tag, body);
    var mid := s[3 + |tag|..|s| - 3];
    assert mid == "\n" + body + "\n";
    assert s[|s| - 4] == mid[|body| + 1];
    assert s[|s| - 4..] == [s[|s| - 4]] + s[|s| - 3..];
    assert s[4 + |tag|..|s| - 4] == mid[1..|body| + 1];
  }

  datatype RewrittenPrompt = RewrittenPrompt(prompt: string)

  function RewriteRequest(model: string, raw: string): Request {
    Chat(model, 0.3, RewriteSystem, raw)
  }

  /** `rewrite_prompt(raw_prompt)`: one call and the fence post-processing. */
  function RewritePrompt(up: Upstream, model: string, raw: string): (r: Result<RewrittenPrompt, string>)
    ensures var o := up(0, RewriteRequest(model, raw));
            && (!o.Completion? ==> r == Err(o.detail))
            && (o.Completion? ==> r.Ok? && r.value.prompt == RewriteFences(o.content))
  {
    match up(0, RewriteRequest(model, raw))
    case Completion(c) => Ok(RewrittenPrompt(RewriteFences(c)))
    case InternalServerError(e) => Err(e)
    case OtherError(e) => Err(e)
  }

  /** A rewrite never fails once the model answers, and the answer is whitespace-stripped. */
  lemma RewriteFailsOnlyUpstream(up: Upstream, model: string, raw: string)
    ensures RewritePrompt(up, model, raw).Err? <==> !up(0, RewriteRequest(model, raw)).Completion?
    ensures RewritePrompt(up, model, raw).Ok? ==>
              PyStrip(RewritePrompt(up, model, raw).value.prompt) == RewritePrompt(up, model, raw).value.prompt
  {
  }

  /** What an endpoint returns: the helper's result, or HTTP 500 with `str(e)`. */
  datatype Reply<T> = Ok200(body: T) | Error500(detail: string)

  /** The `try: return helper(...) except Exception as e: raise HTTPException(500, str(e))` wrapper. */
  function Endpoint<T>(r: Result<T, string>): (reply: Reply<T>)
    ensures reply.Ok200? <==> r.Ok?
    ensures r.Ok? ==> reply == Ok200(r.value)
    ensures r.Err? ==> reply == Error500(r.error)
  {
    match r
    case Ok(v) => Ok200(v)
    case Err(e) => Error500(e)
  }

  /** `POST /analyze-prompt`. */
  function AnalyzeEndpoint(up: Upstream, parse: Parser, invalid: string -> string, model: string, prompt: string)
    : Reply<PromptAnalysis>
  {
    Endpoint(AnalyzePrompt(up, parse, invalid, model, prompt))
  }

  /** `POST /suggest-improvements`. */
  function SuggestEndpoint(up: Upstream, parse: Parser, invalid: Json -> string, model: string, prompt: string)
    : Reply<ImprovementSuggestions>
  {
    Endpoint(SuggestImprovements(up, parse, invalid, model, prompt))
  }

  /** `POST /rewrite-prompt`. */
  function RewriteEndpoint(up: Upstream, model: string, prompt: string): Reply<RewrittenPrompt> {
    Endpoint(RewritePrompt(up, model, prompt))
  }

  /**
    `/analyze-prompt` answers 200 exactly when the model answers and the
    de-fenced answer validates; every other case is a 500 whose detail is the
    upstream error's text or the invalid-JSON message.
   */
  lemma AnalyzeEndpointStatus(up: Upstream, parse: Parser, invalid: string -> string, model: string, prompt: string)
    ensures var o := up(0, AnalyzeRequest(model, prompt));
            var reply := AnalyzeEndpoint(up, parse, invalid, model, prompt);
            && (reply.Ok200? <==> o.Completion? && parse(Fences.StripFences(o.content)).Ok?
                                  && IsPromptAnalysis(parse(Fences.StripFences(o.content)).value))
            && (!o.Completion? ==> reply == Error500(o.detail))
            && (o.Completion? && reply.Error500? ==>
                  var p := Fences.StripFences(o.content);
                  reply.detail == InvalidJsonMessage(invalid(p), p))
  {
  }

  /** `/suggest-improvements` answers 200 exactly when the de-fenced answer decodes to an array of strings. */
  lemma SuggestEndpointStatus(up: Upstream, parse: Parser, invalid: Json -> string, model: string, prompt: string)
    ensures var o := up(0, SuggestRequest(model, prompt));
            var reply := SuggestEndpoint(up, parse, invalid, model, prompt);
            && (reply.Ok200? <==> o.Completion? && parse(Fences.StripFences(o.content)).Ok?
                                  && IsStringArray(parse(Fences.StripFences(o.content)).value))
            && (!o.Completion? ==> reply == Error500(o.detail))
  {
  }

  /** `/rewrite-prompt` answers 500 exactly when the model call raises, with that error's text. */
  lemma RewriteEndpointStatus(up: Upstream, model: string, prompt: string)
    ensures var o := up(0, RewriteRequest(model, prompt));
            var reply := RewriteEndpoint(up, model, prompt);
            && (reply.Error500? <==> !o.Completion?)
            && (!o.Completion? ==> reply == Error500(o.detail))
            && (o.Completion? ==> reply == Ok200(RewrittenPrompt(RewriteFences(o.content))))
  {
  }
}
