/**
  The three-stage template pipeline script: topics from one agent, a
  meta-prompt per topic from a second, a final user prompt per meta-prompt
  from a third, then one POST per final prompt to the templates API. Each
  agent is an oracle from the number of its run and its input to the
  response content or the exception it raises; `json.loads` and the HTTP
  POST are oracles too. Printing is not modelled.
 */
module Pipeline {
  import opened Wrappers
  import opened Text
  import opened Json

  /** The `k`-th `agent.run(input)` of one agent: the response content, or the text of what it raised. */
  type AgentRun = (nat, string) -> Result<string, string>

  /** `topic_agent`, `meta_agent` and `final_agent`. */
  datatype Agents = Agents(topic: AgentRun, meta: AgentRun, final: AgentRun)

  /** Why a stage raised, ending the script. */
  datatype Failure =
    | AgentFailed(detail: string)
    | Undecodable(detail: string)
    | MissingFields
    | MissingKey(key: string)
    | NotText
    | NotTopicList
    | TopicsNotIterable

  /** The text of the `ValueError` for a `MissingFields` failure. */
  const MissingFieldsMessage := "Response missing required fields"

  /** The industry the script runs for. */
  const ScriptIndustry := "Instagram Story Ideas"

  /**
    The script's fixed prompt texts. The functions below take them as a
    value, so what is proved holds whatever the texts are; `Script` holds the
    texts of the source.
   */
  datatype Texts = Texts(
    topicIntro: string, topicMiddle: string, topicEnd: string,
    metaHead: string, metaMiddle: string, metaEnd: string,
    finalInstruction: string)

  const Script := Texts(
    "You are an expert in prompt engineering.  List ",
    " distinct topic areas for creating prompt templates in the **",
    "** industry.  Return ONLY a JSON array of strings.",
    "You are a senior prompt engineer. Return a JSON object in this EXACT format:\n{\n  \"topic\": \"",
    "\",\n"
    + "  \"meta_prompt\": \"Your detailed LLM prompt here\"\n"
    + "}\n\n"
    + "Given the topic and ",
    " above, generate a single user-facing prompt that can be sent straight into an LLM. "
    + "Your `meta_prompt` must:\n"
    + "• Begin with a clear role declaration (e.g., “System:” or a system message block).\n"
    + "• Specify the task in plain terms.\n"
    + "• Be structured into sections as needed (Task / Context / References / Evaluate / Iterate).\n"
    + "• Follow standard LLM prompting conventions (short sentences, explicit instructions).\n"
    + "Return ONLY the JSON object—no extra text, no markdown fences.",
    "Use the meta prompt provided to generate a user prompt. Return the user prompt only, no other text.")

  /** Part of a plain string literal in the meta prompt, so it is sent as written rather than filled in. */
  const IndustryPlaceholder := "**{industry}**"

  /** The prompt of `gen_topics`. */
  function TopicPrompt(t: Texts, industry: string, count: int): string {
    t.topicIntro + IntToString(count) + t.topicMiddle + industry + t.topicEnd
  }

  /** The topic prompt names the count and the industry. */
  lemma TopicPromptEmbeds(t: Texts, industry: string, count: int)
    ensures InfixAt(IntToString(count), TopicPrompt(t, industry, count), |t.topicIntro|)
    ensures IsInfix(industry, TopicPrompt(t, industry, count))
  {
    var p := TopicPrompt(t, industry, count);
    var c := IntToString(count);
    Embedded(t.topicIntro, c, t.topicMiddle + industry + t.topicEnd, p);
    Embedded(t.topicIntro + c + t.topicMiddle, industry, t.topicEnd, p);
  }

  lemma Embedded(pre: string, x: string, post: string, s: string)
    requires s == pre + x + post
    ensures InfixAt(x, s, |pre|) && IsInfix(x, s)
  {
    assert s[|pre|..|pre| + |x|] == x;
    assert InfixAt(x, s, |pre|);
  }

  /**
    `gen_topics(industry, count)`: one run of the topic agent, decoded with
    no check of its shape.
   */
  function GenTopics(t: Texts, agents: Agents, parse: Parser, industry: string, count: int := 10): (r: Result<Json, Failure>)
    ensures var reply := agents.topic(0, TopicPrompt(t, industry, count));
            && (reply.Err? ==> r == Err(AgentFailed(reply.error)))
            && (reply.Ok? && parse(reply.value).Err? ==> r == Err(Undecodable(parse(reply.value).error)))
            && (reply.Ok? && parse(reply.value).Ok? ==> r == Ok(parse(reply.value).value))
  {
    match agents.topic(0, TopicPrompt(t, industry, count))
    case Err(e) => Err(AgentFailed(e))
    case Ok(c) =>
      match parse(c)
      case Err(e) => Err(Undecodable(e))
      case Ok(j) => Ok(j)
  }

  /** The prompt `make_meta` sends for one topic. It takes no industry. */
  function MetaPrompt(t: Texts, topic: string): string {
    t.metaHead + topic + t.metaMiddle + IndustryPlaceholder + t.metaEnd
  }

  /** The meta prompt holds the topic and, instead of the industry, the literal `**{industry}**`. */
  lemma MetaPromptEmbeds(t: Texts, topic: string)
    ensures InfixAt(topic, MetaPrompt(t, topic), |t.metaHead|)
    ensures IsInfix(IndustryPlaceholder, MetaPrompt(t, topic))
  {
    var p := MetaPrompt(t, topic);
    Embedded(t.metaHead, topic, t.metaMiddle + IndustryPlaceholder + t.metaEnd, p);
    Embedded(t.metaHead + topic + t.metaMiddle, IndustryPlaceholder, t.metaEnd, p);
  }

  /** What `make_meta` accepts: a JSON object with both `topic` and `meta_prompt`. */
  predicate IsMeta(j: Json) {
    j.JObj? && "topic" in j.fields && "meta_prompt" in j.fields
  }

  /** One iteration of `make_meta`, for the `k`-th topic. */
  function MetaStep(t: Texts, agents: Agents, parse: Parser, k: nat, topic: string): Result<Json, Failure>
  {
    match agents.meta(k, MetaPrompt(t, topic))
    case Err(e) => Err(AgentFailed(e))
    case Ok(c) =>
      match parse(c)
      case Err(e) => Err(Undecodable(e))
      case Ok(j) => if IsMeta(j) then Ok(j) else Err(MissingFields)
  }

  /**
    The first `n` iterations of `make_meta`: one accepted meta per topic, in
    order; the first failure ends the stage, with no partial list.
   */
  function Metas(t: Texts, agents: Agents, parse: Parser, topics: seq<string>, n: nat): (r: Result<seq<Json>, Failure>)
    requires n <= |topics|
    ensures r.Ok? ==> |r.value| == n && forall k :: 0 <= k < n ==> MetaStep(t, agents, parse, k, topics[k]) == Ok(r.value[k])
  {
    if n == 0 then Ok([])
    else
      match Metas(t, agents, parse, topics, n - 1)
      case Err(e) => Err(e)
      case Ok(metas) =>
        match MetaStep(t, agents, parse, n - 1, topics[n - 1])
        case Err(e) => Err(e)
        case Ok(m) => Ok(metas + [m])
  }

  /** The stage succeeds exactly when every topic's step does. */
  lemma {:induction false} MetasOkIffAllSteps(t: Texts, agents: Agents, parse: Parser, topics: seq<string>, n: nat)
    requires n <= |topics|
    ensures Metas(t, agents, parse, topics, n).Ok? <==> forall k :: 0 <= k < n ==> MetaStep(t, agents, parse, k, topics[k]).Ok?
  {
    if n > 0 {
      MetasOkIffAllSteps(t, agents, parse, topics, n - 1);
    }
  }

  /** The first failing topic decides the failure; no later topic matters. */
  lemma {:induction false} MetaFirstFailureWins(t: Texts, agents: Agents, parse: Parser, topics: seq<string>, n: nat, k: nat)
    requires k < n <= |topics|
    requires MetaStep(t, agents, parse, k, topics[k]).Err?
    requires forall i :: 0 <= i < k ==> MetaStep(t, agents, parse, i, topics[i]).Ok?
    ensures Metas(t, agents, parse, topics, n) == Err(MetaStep(t, agents, parse, k, topics[k]).error)
  {
    if n == k + 1 {
      MetasOkIffAllSteps(t, agents, parse, topics, k);
    } else {
      MetaFirstFailureWins(t, agents, parse, topics, n - 1, k);
    }
  }

  /** A failure among the first `k` topics is the failure of the stage. */
  lemma {:induction false} MetaFailureStays(t: Texts, agents: Agents, parse: Parser, topics: seq<string>, k: nat, n: nat)
    requires k <= n <= |topics|
    requires Metas(t, agents, parse, topics, k).Err?
    ensures Metas(t, agents, parse, topics, n) == Metas(t, agents, parse, topics, k)
  {
    if n > k {
      MetaFailureStays(t, agents, parse, topics, k, n - 1);
    }
  }

  /**
    `make_meta(industry, topics)`: one meta prompt per topic, in order; the
    first failure is re-raised and ends the stage. `industry` is unused.
   */
  method MakeMeta(t: Texts, agents: Agents, parse: Parser, industry: string, topics: seq<string>)
    returns (r: Result<seq<Json>, Failure>)
    ensures r == Metas(t, agents, parse, topics, |topics|)
  {
    var metas: seq<Json> := [];
    var k := 0;
    while k < |topics|
      invariant 0 <= k <= |topics|
      invariant Metas(t, agents, parse, topics, k) == Ok(metas)
    {
      var raw := agents.meta(k, MetaPrompt(t, topics[k]));
      var failure: Option<Failure> := None;
      if raw.Err? {
        failure := Some(AgentFailed(raw.error));
      } else {
        var response := parse(raw.value);
        if response.Err? {
          failure := Some(Undecodable(response.error));
        } else if !IsMeta(response.value) {
          failure := Some(MissingFields);
        } else {
          metas := metas + [response.value];
        }
      }
      if failure.Some? {
        assert Metas(t, agents, parse, topics, k + 1) == Err(failure.value);
        MetaFailureStays(t, agents, parse, topics, k + 1, |topics|);
        return Err(failure.value);
      }
      k := k + 1;
    }
    return Ok(metas);
  }

  /** An accepted meta is the decoded reply of the meta agent to the topic's prompt. */
  lemma MetaStepMeaning(t: Texts, agents: Agents, parse: Parser, k: nat, topic: string)
    requires MetaStep(t, agents, parse, k, topic).Ok?
    ensures var m := MetaStep(t, agents, parse, k, topic).value;
            && IsMeta(m)
            && agents.meta(k, MetaPrompt(t, topic)).Ok?
            && parse(agents.meta(k, MetaPrompt(t, topic)).value) == Ok(m)
  {
  }

  /** An entry of `finals`: the meta's `topic` value as it came, and the stripped user prompt. */
  datatype Final = Final(topic: Json, userPrompt: string)

  /**
    One iteration of `generate_final`, for the `k`-th meta: `meta_prompt` is
    looked up and must be a string for the `+`, the agent runs, then `topic`
    is looked up. A lookup in a value that is not an object is reported as
    the missing key.
   */
  function FinalStep(t: Texts, agents: Agents, k: nat, m: Json): Result<Final, Failure>
  {
    if !(m.JObj? && "meta_prompt" in m.fields) then Err(MissingKey("meta_prompt"))
    else if !m.fields["meta_prompt"].JStr? then Err(NotText)
    else
      match agents.final(k, m.fields["meta_prompt"].s + t.finalInstruction)
      case Err(e) => Err(AgentFailed(e))
      case Ok(c) =>
        if "topic" in m.fields then Ok(Final(m.fields["topic"], PyStrip(c)))
        else Err(MissingKey("topic"))
  }

  /** A final is made only from a meta with a string `meta_prompt` and a `topic`, and holds the stripped reply. */
  lemma FinalStepMeaning(t: Texts, agents: Agents, k: nat, m: Json)
    requires FinalStep(t, agents, k, m).Ok?
    ensures var f := FinalStep(t, agents, k, m).value;
            && m.JObj? && "topic" in m.fields && f.topic == m.fields["topic"]
            && "meta_prompt" in m.fields && m.fields["meta_prompt"].JStr?
            && agents.final(k, m.fields["meta_prompt"].s + t.finalInstruction).Ok?
            && f.userPrompt == PyStrip(agents.final(k, m.fields["meta_prompt"].s + t.finalInstruction).value)
  {
  }

  /** The first `n` iterations of `generate_final`; any failure ends the stage. */
  function Finals(t: Texts, agents: Agents, metas: seq<Json>, n: nat): (r: Result<seq<Final>, Failure>)
    requires n <= |metas|
    ensures r.Ok? ==> |r.value| == n
  {
    if n == 0 then Ok([])
    else
      match Finals(t, agents, metas, n - 1)
      case Err(e) => Err(e)
      case Ok(finals) =>
        match FinalStep(t, agents, n - 1, metas[n - 1])
        case Err(e) => Err(e)
        case Ok(f) => Ok(finals + [f])
  }

  /** The `k`-th final is the `k`-th meta's step. */
  lemma {:induction false} FinalsAt(t: Texts, agents: Agents, metas: seq<Json>, n: nat, k: nat)
    requires k < n <= |metas|
    requires Finals(t, agents, metas, n).Ok?
    ensures FinalStep(t, agents, k, metas[k]) == Ok(Finals(t, agents, metas, n).value[k])
  {
    if k < n - 1 {
      FinalsAt(t, agents, metas, n - 1, k);
    }
  }

  /** A failure among the first `k` metas is the failure of the stage. */
  lemma {:induction false} FinalFailureStays(t: Texts, agents: Agents, metas: seq<Json>, k: nat, n: nat)
    requires k <= n <= |metas|
    requires Finals(t, agents, metas, k).Err?
    ensures Finals(t, agents, metas, n) == Finals(t, agents, metas, k)
  {
    if n > k {
      FinalFailureStays(t, agents, metas, k, n - 1);
    }
  }

  /** `generate_final(metas)`: one final prompt per meta, in order; any exception ends the stage. */
  method GenerateFinal(t: Texts, agents: Agents, metas: seq<Json>) returns (r: Result<seq<Final>, Failure>)
    ensures r == Finals(t, agents, metas, |metas|)
  {
    var finals: seq<Final> := [];
    var k := 0;
    while k < |metas|
      invariant 0 <= k <= |metas|
      invariant Finals(t, agents, metas, k) == Ok(finals)
    {
      var step := FinalStep(t, agents, k, metas[k]);
      if step.Err? {
        assert Finals(t, agents, metas, k + 1) == Err(step.error);
        FinalFailureStays(t, agents, metas, k + 1, |metas|);
        return Err(step.error);
      }
      finals := finals + [step.value];
      k := k + 1;
    }
    return Ok(finals);
  }

  /** An accepted meta has both keys. */
  lemma MetaStepIsMeta(t: Texts, agents: Agents, parse: Parser, k: nat, topic: string)
    requires MetaStep(t, agents, parse, k, topic).Ok?
    ensures IsMeta(MetaStep(t, agents, parse, k, topic).value)
  {
  }

  /** A final's topic is the meta's `topic` value. */
  lemma FinalStepTopic(t: Texts, agents: Agents, k: nat, m: Json)
    requires FinalStep(t, agents, k, m).Ok?
    ensures m.JObj? && "topic" in m.fields && FinalStep(t, agents, k, m).value.topic == m.fields["topic"]
  {
  }

  /**
    The finals copy forward the topic each meta reply echoed, never the seed
    topic: a meta agent that names another topic has that topic saved.
   */
  lemma FinalsFollowMetas(t: Texts, agents: Agents, parse: Parser, topics: seq<string>, metas: seq<Json>, finals: seq<Final>)
    requires Metas(t, agents, parse, topics, |topics|) == Ok(metas)
    requires Finals(t, agents, metas, |metas|) == Ok(finals)
    ensures |metas| == |finals| == |topics|
    ensures forall k :: 0 <= k < |topics| ==>
              && MetaStep(t, agents, parse, k, topics[k]) == Ok(metas[k])
              && IsMeta(metas[k])
              && FinalStep(t, agents, k, metas[k]) == Ok(finals[k])
              && finals[k].topic == metas[k].fields["topic"]
  {
    forall k | 0 <= k < |topics|
      ensures && IsMeta(metas[k])
              && FinalStep(t, agents, k, metas[k]) == Ok(finals[k])
              && finals[k].topic == metas[k].fields["topic"]
    {
      MetaStepIsMeta(t, agents, parse, k, topics[k]);
      FinalsAt(t, agents, metas, |metas|, k);
      FinalStepTopic(t, agents, k, metas[k]);
    }
  }

  /** The JSON body posted for one final: the run's industry, the topic, the prompt. */
  datatype Payload = Payload(industry: string, topic: Json, prompt: string)

  /** What the templates API answers: the saved record's id, or a non-ok status with its text. */
  datatype PostReply = Saved(id: string) | Rejected(text: string)

  /** `requests.post(API_URL, json=payload)` for the `k`-th entry. */
  type Poster = (nat, Payload) -> PostReply

  /** What the save loop reports for one entry. */
  datatype LogLine = SavedTemplate(id: string) | FailedToSave(payload: Payload, text: string)

  function PayloadOf(industry: string, entry: Final): Payload {
    Payload(industry, entry.topic, entry.userPrompt)
  }

  /** The outcome of posting the `k`-th entry. */
  function SaveLine(post: Poster, k: nat, industry: string, entry: Final): LogLine {
    match post(k, PayloadOf(industry, entry))
    case Saved(id) => SavedTemplate(id)
    case Rejected(text) => FailedToSave(PayloadOf(industry, entry), text)
  }

  /** The save loop of the script: every entry is posted, in order, whatever happened to earlier ones. */
  method SaveAll(post: Poster, industry: string, finals: seq<Final>) returns (log: seq<LogLine>)
    ensures |log| == |finals|
    ensures forall k :: 0 <= k < |finals| ==> log[k] == SaveLine(post, k, industry, finals[k])
  {
    log := [];
    for k := 0 to |finals|
      invariant |log| == k
      invariant forall i :: 0 <= i < k ==> log[i] == SaveLine(post, i, industry, finals[i])
    {
      var payload := Payload(industry, finals[k].topic, finals[k].userPrompt);
      var reply := post(k, payload);
      if reply.Rejected? {
        log := log + [FailedToSave(payload, reply.text)];
      } else {
        log := log + [SavedTemplate(reply.id)];
      }
    }
  }

  datatype Stage = TopicStage | MetaStage | FinalStage

  /** How the script ends: a stage raised, or every stage ran and each final was posted. */
  datatype PipelineRun =
    | Aborted(stage: Stage, failure: Failure)
    | Finished(topics: seq<string>, metas: seq<Json>, finals: seq<Final>, log: seq<LogLine>)

  /** The log of the save loop. */
  function SaveLog(post: Poster, industry: string, finals: seq<Final>): seq<LogLine> {
    seq(|finals|, k requires 0 <= k < |finals| => SaveLine(post, k, industry, finals[k]))
  }

  /** `{topic}` in an f-string, as Python's `str` renders a scalar JSON value; `None` for a list or a dict. */
  function PyStr(v: Json): Option<string> {
    match v
    case JStr(s) => Some(s)
    case JInt(n) => Some(IntToString(n))
    case JBool(b) => Some(if b then "True" else "False")
    case JNull => Some("None")
    case _ => None
  }

  /** What `for topic in topics` does with the decoded topic reply. */
  datatype TopicIteration =
    | Visits(topics: seq<string>)  // the topics visited, each as `{topic}` renders it
    | Scalar                       // a number, a boolean or `null`: `TypeError`, not iterable
    | Unrendered                   // a dict, or a list holding a list or a dict

  /**
    A list visits its elements and a string its characters; a scalar cannot
    be iterated. A dict (whose key order the JSON value does not keep) and a
    list with a nested container (whose `repr` is not modelled) are left
    unrendered.
   */
  function IterateTopics(j: Json): TopicIteration {
    match j
    case JStr(s) => Visits(seq(|s|, i requires 0 <= i < |s| => [s[i]]))
    case JArr(items) =>
      if forall i :: 0 <= i < |items| ==> PyStr(items[i]).Some? then
        Visits(seq(|items|, i requires 0 <= i < |items| && PyStr(items[i]).Some? => PyStr(items[i]).value))
      else Unrendered
    case JObj(_) => Unrendered
    case _ => Scalar
  }

  /** A list of strings, the reply the prompt asks for, visits exactly its strings. */
  lemma StringListVisitsItsStrings(j: Json)
    requires IsStringArray(j)
    ensures IterateTopics(j) == Visits(Strings(j))
  {
  }

  /** A list of numbers, booleans or nulls is visited too, each element as Python prints it. */
  lemma ScalarListVisited(j: Json, i: nat)
    requires j.JArr? && i < |j.items|
    requires forall k :: 0 <= k < |j.items| ==> !j.items[k].JArr? && !j.items[k].JObj?
    ensures IterateTopics(j).Visits? && |IterateTopics(j).topics| == |j.items|
    ensures j.items[i].JInt? ==> IterateTopics(j).topics[i] == IntToString(j.items[i].n)
    ensures j.items[i] == JNull ==> IterateTopics(j).topics[i] == "None"
    ensures j.items[i] == JBool(true) ==> IterateTopics(j).topics[i] == "True"
    ensures j.items[i] == JBool(false) ==> IterateTopics(j).topics[i] == "False"
  {
    assert forall k :: 0 <= k < |j.items| ==> PyStr(j.items[k]).Some?;
  }

  /** A string reply is visited one character at a time. */
  lemma StringReplyVisitsCharacters(s: string)
    ensures IterateTopics(JStr(s)).Visits?
    ensures |IterateTopics(JStr(s)).topics| == |s|
    ensures forall i :: 0 <= i < |s| ==> IterateTopics(JStr(s)).topics[i] == [s[i]]
  {
  }

  /** The script's stages in order, each starting only after the previous one produced its whole list. */
  function PipelineSpec(t: Texts, agents: Agents, parse: Parser, post: Poster, industry: string): PipelineRun {
    match GenTopics(t, agents, parse, industry)
    case Err(e) => Aborted(TopicStage, e)
    case Ok(j) =>
      match IterateTopics(j)
      case Scalar => Aborted(MetaStage, TopicsNotIterable)
      case Unrendered => Aborted(TopicStage, NotTopicList)
      case Visits(topics) =>
        match Metas(t, agents, parse, topics, |topics|)
        case Err(e) => Aborted(MetaStage, e)
        case Ok(metas) =>
          match Finals(t, agents, metas, |metas|)
          case Err(e) => Aborted(FinalStage, e)
          case Ok(finals) => Finished(topics, metas, finals, SaveLog(post, industry, finals))
  }

  /** The `__main__` block, for the given industry. */
  method RunPipeline(t: Texts, agents: Agents, parse: Parser, post: Poster, industry: string) returns (run: PipelineRun)
    ensures run == PipelineSpec(t, agents, parse, post, industry)
  {
    var decoded := GenTopics(t, agents, parse, industry);
    if decoded.Err? {
      return Aborted(TopicStage, decoded.error);
    }
    var visit := IterateTopics(decoded.value);
    if visit.Scalar? {
      return Aborted(MetaStage, TopicsNotIterable);
    }
    if visit.Unrendered? {
      return Aborted(TopicStage, NotTopicList);
    }
    var topics := visit.topics;
    var metas := MakeMeta(t, agents, parse, industry, topics);
    if metas.Err? {
      return Aborted(MetaStage, metas.error);
    }
    var finals := GenerateFinal(t, agents, metas.value);
    if finals.Err? {
      return Aborted(FinalStage, finals.error);
    }
    var log := SaveAll(post, industry, finals.value);
    assert log == SaveLog(post, industry, finals.value);
    return Finished(topics, metas.value, finals.value, log);
  }

  /**
    A finished run posted one payload per topic, in topic order, each with
    the run's industry, the topic the meta agent echoed and the stripped
    final prompt.
   */
  lemma FinishedRunPostsEveryTopic(t: Texts, agents: Agents, parse: Parser, post: Poster, industry: string)
    requires PipelineSpec(t, agents, parse, post, industry).Finished?
    ensures var run := PipelineSpec(t, agents, parse, post, industry);
            && |run.log| == |run.finals| == |run.metas| == |run.topics|
            && forall k :: 0 <= k < |run.topics| ==>
                 && run.log[k] == SaveLine(post, k, industry, run.finals[k])
                 && run.finals[k].topic == run.metas[k].fields["topic"]
  {
    var run := PipelineSpec(t, agents, parse, post, industry);
    FinalsFollowMetas(t, agents, parse, run.topics, run.metas, run.finals);
  }

  /** A meta reply that fails ends the run in the meta stage: no final prompt is made and nothing is posted. */
  lemma MetaFailureAbortsRun(t: Texts, agents: Agents, parse: Parser, post: Poster, industry: string, topics: seq<string>, k: nat)
    requires GenTopics(t, agents, parse, industry) == Ok(StringArray(topics))
    requires k < |topics|
    requires MetaStep(t, agents, parse, k, topics[k]).Err?
    requires forall i :: 0 <= i < k ==> MetaStep(t, agents, parse, i, topics[i]).Ok?
    ensures PipelineSpec(t, agents, parse, post, industry) == Aborted(MetaStage, MetaStep(t, agents, parse, k, topics[k]).error)
  {
    StringListVisitsItsStrings(StringArray(topics));
    MetaFirstFailureWins(t, agents, parse, topics, |topics|, k);
  }

  /** A topic reply that is a number, a boolean or `null` ends the run in the meta stage before any meta agent runs. */
  lemma ScalarTopicsAbortInMetaStage(t: Texts, agents: Agents, parse: Parser, post: Poster, industry: string)
    requires GenTopics(t, agents, parse, industry).Ok?
    requires var j := GenTopics(t, agents, parse, industry).value; j.JInt? || j.JBool? || j.JNull?
    ensures PipelineSpec(t, agents, parse, post, industry) == Aborted(MetaStage, TopicsNotIterable)
  {
  }
}
