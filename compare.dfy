/**
  The `/compare` handler: two plain model calls (no retry) answer the
  original and the rewritten prompt, a third call grades both answers, and
  the grading model's JSON is mapped onto `Criterion` records and summed. Every
  failure is an unhandled exception, which the web framework turns into an
  HTTP 500; the model keeps which step failed.
 */
module Compare {
  import opened Wrappers
  import opened Text
  import opened Json
  import opened Llm
  import opened Models
  import Fences

  const GradeSystem :=
    "You are an unbiased evaluator. You'll receive:\n"
    + "- Task description\n"
    + "- Answer A\n"
    + "- Answer B\n"
    + "\n"
    + "For each criterion give an integer 1-5 (higher is better) and return ONLY strict JSON:\n"
    + "\n"
    + "{\n"
    + "  \"criteria\": [\n"
    + "    { \"name\": \"relevance\",   \"score_a\": <int>, \"score_b\": <int> },\n"
    + "    { \"name\": \"completeness\",\"score_a\": <int>, \"score_b\": <int> },\n"
    + "    { \"name\": \"style\",       \"score_a\": <int>, \"score_b\": <int> },\n"
    + "    { \"name\": \"conciseness\", \"score_a\": <int>, \"score_b\": <int> }\n"
    + "  ]\n"
    + "}\n"
    + "No extra text.\n"

  const TaskFallback := "Use the prompt itself to infer the task."

  /** `ask_llm(prompt)`: one user message at temperature 0.3. */
  function AskRequest(model: string, prompt: string): Request {
    Request(model, 0.3, [Message(User, prompt)])
  }

  /** `req.task_description or '...'`: `None` and the empty string both fall back. */
  function TaskText(task: Option<string>): string {
    if task.Some? && task.value != "" then task.value else TaskFallback
  }

  /** The f-string `grading_payload`, which starts and ends with a newline. */
  function GradingPayload(task: Option<string>, a: string, b: string): string {
    "\nTask: " + TaskText(task) + "\n\nAnswer A:\n" + a + "\n\nAnswer B:\n" + b + "\n"
  }

  function GradeRequest(model: string, payload: string): Request {
    Chat(model, 0.0, GradeSystem, payload)
  }

  const JsonFence := "```json"

  /**
    Python `re.sub(r"^```json|```$", "", t, flags=re.DOTALL)`: an opening
    "```json" at the very start, and a "```" that ends the text or stands
    just before a final newline, after where the opening match ended.
   */
  function JsonFenceMarks(t: string): string {
    var a := if StartsWith(t, JsonFence) then |JsonFence| else 0;
    if EndsWith(t, Fences.Fence) && |t| - 3 >= a then t[a..|t| - 3]
    else if EndsWith(t, Fences.Fence + "\n") && |t| - 4 >= a then t[a..|t| - 4] + "\n"
    else t[a..]
  }

  /** The grading model's reply as `compare` cleans it: strip, remove the marks, strip again. */
  function CompareStrip(raw: string): string {
    PyStrip(JsonFenceMarks(PyStrip(raw)))
  }

  /** Why `compare` raised. */
  datatype Failure =
    | UpstreamError(outcome: Outcome)   // an exception from one of the three model calls
    | DecodeError(reason: string)       // `json.JSONDecodeError`
    | ShapeError                        // `KeyError`, `TypeError` or pydantic `ValidationError`

  /**
    What `for c in data["criteria"]` iterates over: the elements of an array;
    nothing for an empty object or an empty string (iterating them yields
    nothing); `None` for anything else, whose lookup or iteration raises.
   */
  function CriteriaItems(data: Json): (r: Option<seq<Json>>)
    ensures r.Some? ==> Has(data, "criteria")
    ensures data.JObj? && "criteria" in data.fields && data.fields["criteria"].JArr?
            ==> r == Some(data.fields["criteria"].items)
  {
    if !Has(data, "criteria") then None
    else
      match data.fields["criteria"]
      case JArr(items) => Some(items)
      case JObj(m) => if |m| == 0 then Some([]) else None
      case JStr(s) => if s == "" then Some([]) else None
      case _ => None
  }

  /** `Criterion(name=c["name"], score_original=c["score_a"], score_rewrite=c["score_b"])`. */
  function ToCriterion(c: Json): (r: Option<Criterion>)
    ensures r.Some? <==> Has(c, "name") && Has(c, "score_a") && Has(c, "score_b")
                         && c.fields["name"].JStr? && c.fields["score_a"].JInt? && c.fields["score_b"].JInt?
    ensures r.Some? ==> r.value == Criterion(c.fields["name"].s, c.fields["score_a"].n, c.fields["score_b"].n)
  {
    if Has(c, "name") && Has(c, "score_a") && Has(c, "score_b") then
      match (c.fields["name"], c.fields["score_a"], c.fields["score_b"])
      case (JStr(name), JInt(a), JInt(b)) => Some(Criterion(name, a, b))
      case _ => None
    else None
  }

  /** The criteria correspond to the items one by one, in the same order. */
  predicate Positional(items: seq<Json>, cs: seq<Criterion>) {
    |items| == |cs| && forall i :: 0 <= i < |cs| ==> ToCriterion(items[i]) == Some(cs[i])
  }

  /** The list comprehension: every item must convert, or the whole comprehension raises. */
  function ToCriteria(items: seq<Json>): (r: Option<seq<Criterion>>)
    ensures r.Some? ==> Positional(items, r.value)
    ensures r.None? <==> exists i :: 0 <= i < |items| && ToCriterion(items[i]).None?
  {
    if items == [] then Some([])
    else
      match (ToCriterion(items[0]), ToCriteria(items[1..]))
      case (Some(c), Some(rest)) =>
        assert forall i :: 1 <= i < |items| ==> items[i] == items[1..][i - 1];
        Some([c] + rest)
      case (None, _) => None
      case (_, None) =>
        var i :| 0 <= i < |items[1..]| && ToCriterion(items[1..][i]).None?;
        assert items[i + 1] == items[1..][i];
        None
  }

  /** `sum(c.score_original for c in criteria)`. */
  function TotalOriginal(cs: seq<Criterion>): int {
    if cs == [] then 0 else cs[0].scoreOriginal + TotalOriginal(cs[1..])
  }

  /** `sum(c.score_rewrite for c in criteria)`. */
  function TotalRewrite(cs: seq<Criterion>): int {
    if cs == [] then 0 else cs[0].scoreRewrite + TotalRewrite(cs[1..])
  }

  /** The criteria the grading model's JSON value gives, if it has the expected shape. */
  function Scores(data: Json): Option<seq<Criterion>> {
    match CriteriaItems(data)
    case None => None
    case Some(items) => ToCriteria(items)
  }

  /** `compare(req)`: calls 0 and 1 answer the two prompts, call 2 grades them. */
  function Compare(up: Upstream, parse: Parser, model: string, req: CompareRequest): (r: Result<CompareResponse, Failure>)
    ensures !up(0, AskRequest(model, req.originalPrompt)).Completion? ==>
              r == Err(UpstreamError(up(0, AskRequest(model, req.originalPrompt))))
    ensures var oa := up(0, AskRequest(model, req.originalPrompt));
            var ob := up(1, AskRequest(model, req.rewrittenPrompt));
            oa.Completion? && !ob.Completion? ==> r == Err(UpstreamError(ob))
    ensures var oa := up(0, AskRequest(model, req.originalPrompt));
            var ob := up(1, AskRequest(model, req.rewrittenPrompt));
            oa.Completion? && ob.Completion? ==>
              var og := up(2, GradeRequest(model, GradingPayload(req.taskDescription, PyStrip(oa.content), PyStrip(ob.content))));
              && (!og.Completion? ==> r == Err(UpstreamError(og)))
              && (og.Completion? ==>
                    var d := parse(CompareStrip(og.content));
                    && (d.Err? ==> r == Err(DecodeError(d.error)))
                    && (d.Ok? && Scores(d.value).None? ==> r == Err(ShapeError))
                    && (r.Ok? <==> d.Ok? && Scores(d.value).Some?)
                    && (r.Ok? ==> r.value.criteria == Scores(d.value).value))
    ensures r.Ok? ==>
              && up(0, AskRequest(model, req.originalPrompt)).Completion?
              && up(1, AskRequest(model, req.rewrittenPrompt)).Completion?
              && r.value.answerOriginal == PyStrip(up(0, AskRequest(model, req.originalPrompt)).content)
              && r.value.answerRewrite == PyStrip(up(1, AskRequest(model, req.rewrittenPrompt)).content)
    ensures r.Ok? ==>
              var g := up(2, GradeRequest(model, GradingPayload(req.taskDescription, r.value.answerOriginal, r.value.answerRewrite)));
              && g.Completion?
              && parse(CompareStrip(g.content)).Ok?
              && CriteriaItems(parse(CompareStrip(g.content)).value).Some?
              && Positional(CriteriaItems(parse(CompareStrip(g.content)).value).value, r.value.criteria)
    ensures r.Ok? ==> r.value.totalOriginal == TotalOriginal(r.value.criteria)
                      && r.value.totalRewrite == TotalRewrite(r.value.criteria)
  {
    var oa := up(0, AskRequest(model, req.originalPrompt));
    if !oa.Completion? then Err(UpstreamError(oa))
    else
      var a := PyStrip(oa.content);
      var ob := up(1, AskRequest(model, req.rewrittenPrompt));
      if !ob.Completion? then Err(UpstreamError(ob))
      else
        var b := PyStrip(ob.content);
        var og := up(2, GradeRequest(model, GradingPayload(req.taskDescription, a, b)));
        if !og.Completion? then Err(UpstreamError(og))
        else
          match parse(CompareStrip(og.content))
          case Err(e) => Err(DecodeError(e))
          case Ok(data) =>
            match Scores(data)
            case None => Err(ShapeError)
            case Some(cs) => Ok(CompareResponse(a, b, cs, TotalOriginal(cs), TotalRewrite(cs)))
  }

  /**
    The endpoint answers with a comparison exactly when all three calls
    complete, the grading reply decodes and its criteria have the expected
    shape.
   */
  lemma CompareOkIff(up: Upstream, parse: Parser, model: string, req: CompareRequest)
    ensures var oa := up(0, AskRequest(model, req.originalPrompt));
            var ob := up(1, AskRequest(model, req.rewrittenPrompt));
            Compare(up, parse, model, req).Ok? <==>
              && oa.Completion?
              && ob.Completion?
              && var og := up(2, GradeRequest(model, GradingPayload(req.taskDescription, PyStrip(oa.content), PyStrip(ob.content))));
                 && og.Completion?
                 && parse(CompareStrip(og.content)).Ok?
                 && Scores(parse(CompareStrip(og.content)).value).Some?
  {
  }

  // ---------------------------------------------------------------------
  // Properties of the grading step.

  lemma {:induction false} TotalOriginalAppend(xs: seq<Criterion>, ys: seq<Criterion>)
    ensures TotalOriginal(xs + ys) == TotalOriginal(xs) + TotalOriginal(ys)
  {
    if xs != [] {
      assert (xs + ys)[1..] == xs[1..] + ys;
      TotalOriginalAppend(xs[1..], ys);
    } else {
      assert xs + ys == ys;
    }
  }

  lemma {:induction false} TotalRewriteAppend(xs: seq<Criterion>, ys: seq<Criterion>)
    ensures TotalRewrite(xs + ys) == TotalRewrite(xs) + TotalRewrite(ys)
  {
    if xs != [] {
      assert (xs + ys)[1..] == xs[1..] + ys;
      TotalRewriteAppend(xs[1..], ys);
    } else {
      assert xs + ys == ys;
    }
  }

  /** Every score in 1..5, as the grading prompt asks: each total lies between |cs| and 5 |cs|. */
  lemma {:induction false} TotalsWithinRange(cs: seq<Criterion>)
    requires forall i :: 0 <= i < |cs| ==> 1 <= cs[i].scoreOriginal <= 5 && 1 <= cs[i].scoreRewrite <= 5
    ensures |cs| <= TotalOriginal(cs) <= 5 * |cs|
    ensures |cs| <= TotalRewrite(cs) <= 5 * |cs|
  {
    if cs != [] {
      assert forall i :: 0 <= i < |cs[1..]| ==> cs[1..][i] == cs[i + 1];
      TotalsWithinRange(cs[1..]);
    }
  }

  /** A grading reply with one criterion scored 9 and -2. */
  const OutOfRange := JObj(map["criteria" := JArr([
    JObj(map["name" := JStr("relevance"), "score_a" := JInt(9), "score_b" := JInt(-2)])])])

  /** Nothing checks the 1..5 range: scores of 9 and -2 are taken and summed as they are. */
  lemma OutOfRangeAccepted()
    ensures Scores(OutOfRange) == Some([Criterion("relevance", 9, -2)])
    ensures TotalOriginal([Criterion("relevance", 9, -2)]) == 9
    ensures TotalRewrite([Criterion("relevance", 9, -2)]) == -2
  {
    var c := OutOfRange.fields["criteria"].items[0];
    assert "name" != "score_a" && "name" != "score_b" && "score_a" != "score_b" by {
      assert "name"[0] != "score_a"[0] && "score_a"[6] != "score_b"[6];
    }
    assert c.fields["name"] == JStr("relevance");
    assert c.fields["score_a"] == JInt(9) && c.fields["score_b"] == JInt(-2);
    assert ToCriterion(c) == Some(Criterion("relevance", 9, -2));
    assert [c][1..] == [];
    assert [Criterion("relevance", 9, -2)] + [] == [Criterion("relevance", 9, -2)];
    assert ToCriteria([c]) == Some([Criterion("relevance", 9, -2)]);
  }

  /** A missing task and an empty one are both replaced by the fixed sentence. */
  lemma MissingTaskFallsBack(a: string, b: string)
    ensures GradingPayload(None, a, b) == GradingPayload(Some(""), a, b)
    ensures GradingPayload(None, a, b) == GradingPayload(Some(TaskFallback), a, b)
  {
  }

  /** A given task is sent as it is, right after "Task: ". */
  lemma GivenTaskIsSent(task: string, a: string, b: string)
    requires task != ""
    ensures StartsWith(GradingPayload(Some(task), a, b), "\nTask: " + task + "\n")
  {
    var p := GradingPayload(Some(task), a, b);
    var head := "\nTask: " + task + "\n";
    assert p == head + ("\nAnswer A:\n" + a + "\n\nAnswer B:\n" + b + "\n");
  }

  /** A reply fenced as "```json" on its own line comes back stripped, whatever its body. */
  lemma JsonFencedRoundTrip(body: string)
    ensures CompareStrip(Fences.Fenced("json", body)) == PyStrip(body)
  {
    var s := Fences.Fenced("json", body);
    Fences.FencedIsStripped("json", body);
    JsonFencedMarks(body);
    Fences.StripNewlines(body);
  }

  lemma JsonFencedMarks(body: string)
    ensures JsonFenceMarks(Fences.Fenced("json", body)) == "\n" + body + "\n"
  {
    var s := Fences.Fenced("json", body);
    Fences.FencedShape("json", body);
    assert s[..7] == JsonFence;
    assert s[7..|s| - 3] == "\n" + body + "\n";
  }

  /** A reply without the marks is only stripped. */
  lemma UnfencedReplyOnlyStripped(raw: string)
    requires !StartsWith(PyStrip(raw), JsonFence) && !EndsWith(PyStrip(raw), Fences.Fence)
    ensures CompareStrip(raw) == PyStrip(raw)
  {
    var t := PyStrip(raw);
    assert !EndsWith(t, Fences.Fence + "\n") by {
      if |t| >= 4 {
        assert t[|t| - 1] == t[|t| - 4..][3];
        assert t[|t| - 1] != '\n' by { assert IsPySpace('\n'); }
      }
    }
    assert JsonFenceMarks(t) == t;
    Fences.StripIsIdempotent(raw);
  }
}
