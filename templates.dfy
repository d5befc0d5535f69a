/**
  `/api/templates`: the shared template catalogue. `GET` lists templates,
  optionally only one industry's, ordered by industry; `POST` adds one
  template after checking its fields. Both turn any exception into a 500
  response. The request body parser, `decodeURIComponent` and the
  database's availability are inputs of the model.
 */
module TemplatesApi {
  import opened Wrappers
  import opened Json

  /** A `Template` row of the web app's database; `id` is set by the store. */
  datatype Template = Template(id: nat, industry: string, topic: string, prompt: string)

  /** `decodeURIComponent`: the decoded text, or the `URIError` it throws. */
  type UriDecoder = string -> Result<string, string>

  const FetchFailed := "Failed to fetch templates"
  const FieldsRequired := "industry, topic, name and prompt are required"
  const DatabaseError := "Database error"

  // ---- orderBy: { industry: "asc" } ----

  /** Code-point lexicographic order on strings. */
  predicate StrLe(a: string, b: string)
    decreases |a|
  {
    |a| == 0 || (|b| > 0 && (a[0] < b[0] || (a[0] == b[0] && StrLe(a[1..], b[1..]))))
  }

  lemma {:induction false} StrLeTotal(a: string, b: string)
    ensures StrLe(a, b) || StrLe(b, a)
    decreases |a|
  {
    if |a| > 0 && |b| > 0 && a[0] == b[0] {
      StrLeTotal(a[1..], b[1..]);
    }
  }

  lemma {:induction false} StrLeTransitive(a: string, b: string, c: string)
    requires StrLe(a, b) && StrLe(b, c)
    ensures StrLe(a, c)
    decreases |a|
  {
    if |a| > 0 && a[0] == b[0] && b[0] == c[0] {
      StrLeTransitive(a[1..], b[1..], c[1..]);
    }
  }

  predicate ByIndustryOrder(ts: seq<Template>) {
    forall i, j :: 0 <= i < j < |ts| ==> StrLe(ts[i].industry, ts[j].industry)
  }

  lemma TailByIndustry(ts: seq<Template>)
    requires ByIndustryOrder(ts) && ts != []
    ensures ByIndustryOrder(ts[1..])
  {
    forall i, j | 0 <= i < j < |ts| - 1 ensures StrLe(ts[1..][i].industry, ts[1..][j].industry) {
      assert ts[1..][i] == ts[i + 1] && ts[1..][j] == ts[j + 1];
    }
  }

  lemma ConsByIndustry(x: Template, ts: seq<Template>)
    requires ByIndustryOrder(ts)
    requires ts != [] ==> StrLe(x.industry, ts[0].industry)
    ensures ByIndustryOrder([x] + ts)
  {
    forall i, j | 0 <= i < j < |ts| + 1 ensures StrLe(([x] + ts)[i].industry, ([x] + ts)[j].industry) {
      assert ([x] + ts)[j] == ts[j - 1];
      if i > 0 {
        assert ([x] + ts)[i] == ts[i - 1];
      } else if j > 1 {
        StrLeTransitive(x.industry, ts[0].industry, ts[j - 1].industry);
      }
    }
  }

  /** `t` placed before the first template whose industry does not come before its own. */
  function InsertByIndustry(t: Template, ts: seq<Template>): (r: seq<Template>)
    requires ByIndustryOrder(ts)
    ensures ByIndustryOrder(r)
    ensures multiset(r) == multiset(ts) + multiset{t}
    ensures r[0] == t || (ts != [] && r[0] == ts[0])
  {
    if |ts| == 0 || StrLe(t.industry, ts[0].industry) then
      ConsByIndustry(t, ts);
      [t] + ts
    else
      assert ts == [ts[0]] + ts[1..];
      StrLeTotal(t.industry, ts[0].industry);
      TailByIndustry(ts);
      var rest := InsertByIndustry(t, ts[1..]);
      ConsByIndustry(ts[0], rest);
      [ts[0]] + rest
  }

  /** `orderBy: { industry: "asc" }`: the same templates, industries ascending; ties keep store order. */
  function SortByIndustry(ts: seq<Template>): (r: seq<Template>)
    ensures ByIndustryOrder(r)
    ensures multiset(r) == multiset(ts)
  {
    if |ts| == 0 then []
    else
      assert ts == [ts[0]] + ts[1..];
      InsertByIndustry(ts[0], SortByIndustry(ts[1..]))
  }

  // ---- GET ----

  /** `where: { industry }`: the rows of exactly that industry, in store order. */
  function OfIndustry(rows: seq<Template>, industry: string): (r: seq<Template>)
    ensures forall t :: t in r <==> t in rows && t.industry == industry
  {
    if |rows| == 0 then []
    else (if rows[0].industry == industry then [rows[0]] else []) + OfIndustry(rows[1..], industry)
  }

  datatype Listing = Listed(templates: seq<Template>) | ListFailed(error: string)

  function ListingStatus(r: Listing): int {
    if r.Listed? then 200 else 500
  }

  /**
    `GET`: `param` is `searchParams.get("industry")`. An absent or empty
    parameter means every template; otherwise the decoded value selects one
    industry. A decoding error or a database outage gives the 500 response.
   */
  function List(rows: seq<Template>, online: bool, param: Option<string>, decode: UriDecoder): (r: Listing)
    ensures r.ListFailed? ==> r.error == FetchFailed
    ensures r.Listed? <==> online && (param.None? || param.value == "" || decode(param.value).Ok?)
    ensures r.Listed? ==> ByIndustryOrder(r.templates)
  {
    if param.Some? && param.value != "" then
      match decode(param.value)
      case Err(_) => ListFailed(FetchFailed)
      case Ok(industry) =>
        if online then Listed(SortByIndustry(OfIndustry(rows, industry))) else ListFailed(FetchFailed)
    else if online then Listed(SortByIndustry(rows))
    else ListFailed(FetchFailed)
  }

  /** Without an industry, `GET` lists every template: the store's rows, reordered. */
  lemma ListAllWithoutIndustry(rows: seq<Template>, param: Option<string>, decode: UriDecoder)
    requires param.None? || param.value == ""
    ensures List(rows, true, param, decode).Listed?
    ensures multiset(List(rows, true, param, decode).templates) == multiset(rows)
  {
  }

  /** With an industry, `GET` lists exactly the templates of the decoded industry, each as often as stored. */
  lemma ListOneIndustry(rows: seq<Template>, param: string, decode: UriDecoder)
    requires param != "" && decode(param).Ok?
    ensures List(rows, true, Some(param), decode).Listed?
    ensures multiset(List(rows, true, Some(param), decode).templates) == multiset(OfIndustry(rows, decode(param).value))
    ensures forall t :: t in List(rows, true, Some(param), decode).templates <==> t in rows && t.industry == decode(param).value
  {
    var l := List(rows, true, Some(param), decode).templates;
    forall t ensures t in l <==> t in OfIndustry(rows, decode(param).value) {
      assert t in l <==> t in multiset(l);
    }
  }

  // ---- POST ----

  /** JavaScript truthiness of a destructured body field (`undefined` is `None`). */
  predicate Truthy(v: Option<Json>) {
    v.Some? &&
    match v.value
    case JNull => false
    case JBool(b) => b
    case JInt(n) => n != 0
    case JStr(s) => s != ""
    case JArr(_) => true
    case JObj(_) => true
  }

  /** `const { key } = body`: the field of an object; any other non-null value has none. */
  function Field(body: Json, key: string): Option<Json> {
    if body.JObj? && key in body.fields then Some(body.fields[key]) else None
  }

  /** What `POST` decides before touching the store. */
  datatype Decision =
    | BadRequest(error: string)
    | Crash(error: string)
    | Insert(industry: string, topic: string, prompt: string)

  /**
    `POST`'s checks: a body that does not parse, or is `null`, throws into
    the handler's catch; a falsy field gives 400; a truthy field that is not
    a string makes Prisma's validation throw; otherwise one record is made.
   */
  function Decide(parse: Parser, body: string): (d: Decision)
    ensures d.Crash? ==> d.error == DatabaseError
    ensures d.BadRequest? ==> d.error == FieldsRequired
  {
    match parse(body)
    case Err(_) => Crash(DatabaseError)
    case Ok(j) =>
      if j.JNull? then Crash(DatabaseError)
      else
        var industry, topic, prompt := Field(j, "industry"), Field(j, "topic"), Field(j, "prompt");
        if !Truthy(industry) || !Truthy(topic) || !Truthy(prompt) then BadRequest(FieldsRequired)
        else if industry.value.JStr? && topic.value.JStr? && prompt.value.JStr? then
          Insert(industry.value.s, topic.value.s, prompt.value.s)
        else Crash(DatabaseError)
  }

  /** The body's three fields are all non-empty strings. */
  predicate HasTemplateFields(j: Json) {
    && Field(j, "industry").Some? && Field(j, "industry").value.JStr? && Field(j, "industry").value.s != ""
    && Field(j, "topic").Some? && Field(j, "topic").value.JStr? && Field(j, "topic").value.s != ""
    && Field(j, "prompt").Some? && Field(j, "prompt").value.JStr? && Field(j, "prompt").value.s != ""
  }

  /** A record is made exactly when the body parses to an object whose three fields are non-empty strings, and it carries exactly those strings. */
  lemma InsertIffFields(parse: Parser, body: string)
    ensures Decide(parse, body).Insert? <==> parse(body).Ok? && HasTemplateFields(parse(body).value)
    ensures Decide(parse, body).Insert? ==>
              var j := parse(body).value;
              Decide(parse, body) == Insert(j.fields["industry"].s, j.fields["topic"].s, j.fields["prompt"].s)
  {
  }

  /** A missing, empty, `null`, `false` or `0` field is a 400, never a 500. */
  lemma FalsyFieldIsBadRequest(parse: Parser, body: string, key: string)
    requires parse(body).Ok? && !parse(body).value.JNull?
    requires key == "industry" || key == "topic" || key == "prompt"
    requires !Truthy(Field(parse(body).value, key))
    ensures Decide(parse, body) == BadRequest(FieldsRequired)
  {
  }

  datatype Reply = Created201(record: Template) | Rejected400(error: string) | Failed500(error: string)

  /** The `Template` table; `online` is false while the database refuses every query. */
  class Catalog {
    var rows: seq<Template>
    var nextId: nat
    var online: bool

    constructor(initial: seq<Template>, firstId: nat, up: bool)
      ensures rows == initial && nextId == firstId && online == up
    {
      rows := initial;
      nextId := firstId;
      online := up;
    }

    /** `GET`: a query, so nothing in the table changes. */
    function Get(param: Option<string>, decode: UriDecoder): Listing
      reads this
    {
      List(rows, online, param, decode)
    }

    /**
      `POST`: 400 and 500 responses leave the table as it was; a 201 appends
      exactly the record it returns.
     */
    method Post(parse: Parser, body: string) returns (reply: Reply)
      modifies this
      ensures online == old(online)
      ensures reply.Created201? <==> online && Decide(parse, body).Insert?
      ensures reply.Created201? ==>
                var d := Decide(parse, body);
                reply.record == Template(old(nextId), d.industry, d.topic, d.prompt)
                && rows == old(rows) + [reply.record] && nextId == old(nextId) + 1
      ensures !reply.Created201? ==> rows == old(rows) && nextId == old(nextId)
      ensures reply.Rejected400? <==> Decide(parse, body).BadRequest?
      ensures reply.Rejected400? ==> reply.error == FieldsRequired
      ensures reply.Failed500? ==> reply.error == DatabaseError
    {
      var d := Decide(parse, body);
      match d
      case BadRequest(e) =>
        return Rejected400(e);
      case Crash(e) =>
        return Failed500(e);
      case Insert(industry, topic, prompt) =>
        if !online {
          return Failed500(DatabaseError);
        }
        var record := Template(nextId, industry, topic, prompt);
        rows := rows + [record];
        nextId := nextId + 1;
        return Created201(record);
    }
  }
}
