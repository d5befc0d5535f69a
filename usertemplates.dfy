/**
  `/api/usertemplates`: the templates a signed-in user saved. `GET` fetches
  the user's templates newest first and groups them by industry; `POST`
  saves a batch of templates for one industry. The session and the clock
  are parameters; the `UserCreatedTemplate` table is a class whose rows the
  handlers read and append to.
 */
module UserTemplates {
  import opened Wrappers

  /** A `UserCreatedTemplate` row; `id` and `createdAt` are set by the store. */
  datatype UserTemplate = UserTemplate(id: nat, userId: string, industry: string, topic: string, prompt: string, createdAt: int)

  /** `session?.user?.id`: `None` when there is no session, no user or no id. */
  datatype Session = Session(userId: Option<string>)

  /** The guard passes only for a present, non-empty (truthy) user id. */
  predicate SignedIn(s: Session) {
    s.userId.Some? && s.userId.value != ""
  }

  /** One entry of the `GET` response: `{ industry, templates }`. */
  datatype Group = Group(industry: string, templates: seq<UserTemplate>)

  /** One element of the `POST` body's `templates` array. */
  datatype TemplateInput = TemplateInput(topic: string, userPrompt: string)

  const UnauthorizedError := "Unauthorized"

  datatype Reply =
    | Unauthorized(error: string)
    | Grouped(groups: seq<Group>)
    | Created(records: seq<UserTemplate>)
    | InternalError

  function Status(r: Reply): (code: int)
    ensures code == 401 <==> r.Unauthorized?
    ensures code == 200 <==> r.Grouped?
    ensures code == 201 <==> r.Created?
    ensures code == 500 <==> r.InternalError?
  {
    match r
    case Unauthorized(_) => 401
    case Grouped(_) => 200
    case Created(_) => 201
    case InternalError => 500
  }

  // ---- findMany({ where: { userId }, orderBy: { createdAt: 'desc' } }) ----

  /** The rows whose `userId` is `user`, in store order. */
  function OwnedBy(rows: seq<UserTemplate>, user: string): (r: seq<UserTemplate>)
    ensures forall t :: t in r <==> t in rows && t.userId == user
  {
    if |rows| == 0 then []
    else (if rows[0].userId == user then [rows[0]] else []) + OwnedBy(rows[1..], user)
  }

  predicate NewestFirstOrder(ts: seq<UserTemplate>) {
    forall i, j :: 0 <= i < j < |ts| ==> ts[i].createdAt >= ts[j].createdAt
  }

  lemma TailNewestFirst(ts: seq<UserTemplate>)
    requires NewestFirstOrder(ts) && ts != []
    ensures NewestFirstOrder(ts[1..])
  {
    forall i, j | 0 <= i < j < |ts| - 1 ensures ts[1..][i].createdAt >= ts[1..][j].createdAt {
      assert ts[1..][i] == ts[i + 1] && ts[1..][j] == ts[j + 1];
    }
  }

  lemma ConsNewestFirst(x: UserTemplate, ts: seq<UserTemplate>)
    requires NewestFirstOrder(ts)
    requires ts != [] ==> x.createdAt >= ts[0].createdAt
    ensures NewestFirstOrder([x] + ts)
  {
    forall i, j | 0 <= i < j < |ts| + 1 ensures ([x] + ts)[i].createdAt >= ([x] + ts)[j].createdAt {
      if i > 0 {
        assert ([x] + ts)[i] == ts[i - 1];
      }
      assert ([x] + ts)[j] == ts[j - 1];
    }
  }

  /** `t` placed before the first template that is not newer than it. */
  function InsertByDate(t: UserTemplate, ts: seq<UserTemplate>): (r: seq<UserTemplate>)
    requires NewestFirstOrder(ts)
    ensures NewestFirstOrder(r)
    ensures multiset(r) == multiset(ts) + multiset{t}
    ensures r[0] == t || (ts != [] && r[0] == ts[0])
  {
    if |ts| == 0 || ts[0].createdAt <= t.createdAt then
      ConsNewestFirst(t, ts);
      [t] + ts
    else
      assert ts == [ts[0]] + ts[1..];
      TailNewestFirst(ts);
      var rest := InsertByDate(t, ts[1..]);
      ConsNewestFirst(ts[0], rest);
      [ts[0]] + rest
  }

  /** `orderBy: { createdAt: 'desc' }`: the same templates, newest first; ties keep store order. */
  function NewestFirst(ts: seq<UserTemplate>): (r: seq<UserTemplate>)
    ensures NewestFirstOrder(r)
    ensures multiset(r) == multiset(ts)
  {
    if |ts| == 0 then []
    else
      assert ts == [ts[0]] + ts[1..];
      InsertByDate(ts[0], NewestFirst(ts[1..]))
  }

  // ---- the reduce and Object.entries ----

  /** The templates of industry `ind`, in the order of `ts`. */
  function WithIndustry(ts: seq<UserTemplate>, ind: string): seq<UserTemplate> {
    if |ts| == 0 then []
    else WithIndustry(ts[..|ts| - 1], ind) + (if ts[|ts| - 1].industry == ind then [ts[|ts| - 1]] else [])
  }

  /** The distinct industries of `ts`, in order of first occurrence. */
  function Industries(ts: seq<UserTemplate>): seq<string> {
    if |ts| == 0 then []
    else
      var before := Industries(ts[..|ts| - 1]);
      if ts[|ts| - 1].industry in before then before else before + [ts[|ts| - 1].industry]
  }

  /** `groups` is the grouping of `ts`: one group per industry, first occurrence first, each holding its templates in order. */
  predicate GroupsOf(ts: seq<UserTemplate>, groups: seq<Group>) {
    |groups| == |Industries(ts)|
    && forall i :: 0 <= i < |groups| ==>
         groups[i].industry == Industries(ts)[i] && groups[i].templates == WithIndustry(ts, groups[i].industry)
  }

  /** Taking one more template: its industry is appended if new, and it joins its own industry's templates. */
  lemma GroupingStep(ts: seq<UserTemplate>, k: nat)
    requires k < |ts|
    ensures Industries(ts[..k + 1])
            == if ts[k].industry in Industries(ts[..k]) then Industries(ts[..k]) else Industries(ts[..k]) + [ts[k].industry]
  {
    assert ts[..k + 1][..k] == ts[..k];
  }

  lemma WithIndustryStep(ts: seq<UserTemplate>, k: nat, ind: string)
    requires k < |ts|
    ensures WithIndustry(ts[..k + 1], ind) == WithIndustry(ts[..k], ind) + (if ts[k].industry == ind then [ts[k]] else [])
  {
    assert ts[..k + 1][..k] == ts[..k];
  }

  /** An industry that has not occurred yet has no templates. */
  lemma {:induction false} WithIndustryAbsent(ts: seq<UserTemplate>, ind: string)
    requires ind !in Industries(ts)
    ensures WithIndustry(ts, ind) == []
  {
    if |ts| > 0 {
      WithIndustryAbsent(ts[..|ts| - 1], ind);
    }
  }

  /**
    The names a plain object literal inherits from `Object.prototype`. For
    such a key `acc[industry]` is already a function (or, for `__proto__`,
    the prototype itself), so `|| []` keeps it and the `push` that follows
    throws a `TypeError`.
   */
  const InheritedKeys: set<string> := {
    "constructor", "hasOwnProperty", "isPrototypeOf", "propertyIsEnumerable",
    "toLocaleString", "toString", "valueOf", "__proto__",
    "__defineGetter__", "__defineSetter__", "__lookupGetter__", "__lookupSetter__"
  }

  /** The grouping throws: some template's industry is an inherited key. */
  predicate GroupingThrows(ts: seq<UserTemplate>) {
    exists i :: 0 <= i < |ts| && ts[i].industry in InheritedKeys
  }

  /**
    The `reduce`: `acc[industry] = acc[industry] || []` then a push. The
    object's keys, in insertion order, are returned alongside it; `crashed`
    is the `TypeError` of a push onto an inherited member, which ends the
    reduce.
   */
  method CollectByIndustry(ts: seq<UserTemplate>)
    returns (crashed: bool, acc: map<string, seq<UserTemplate>>, keys: seq<string>)
    ensures crashed <==> GroupingThrows(ts)
    ensures !crashed ==> keys == Industries(ts)
    ensures !crashed ==> forall ind :: ind in acc <==> ind in keys
    ensures !crashed ==> forall ind :: ind in acc ==> acc[ind] == WithIndustry(ts, ind)
  {
    acc := map[];
    keys := [];
    for k := 0 to |ts|
      invariant forall i :: 0 <= i < k ==> ts[i].industry !in InheritedKeys
      invariant keys == Industries(ts[..k])
      invariant forall ind :: ind in acc <==> ind in keys
      invariant forall ind :: ind in acc ==> acc[ind] == WithIndustry(ts[..k], ind)
    {
      var t := ts[k];
      if t.industry in InheritedKeys {
        return true, acc, keys;
      }
      GroupingStep(ts, k);
      var before := acc;
      var sofar := if t.industry in acc then acc[t.industry] else [];
      if t.industry !in acc {
        WithIndustryAbsent(ts[..k], t.industry);
        keys := keys + [t.industry];
      }
      acc := acc[t.industry := sofar + [t]];
      forall ind | ind in acc
        ensures acc[ind] == WithIndustry(ts[..k + 1], ind)
      {
        WithIndustryStep(ts, k, ind);
        if ind != t.industry {
          assert acc[ind] == before[ind];
        }
      }
    }
    assert ts[..|ts|] == ts;
    crashed := false;
  }

  /** The reduce, then `Object.entries(...).map(([industry, templates]) => ({ industry, templates }))`. */
  method GroupByIndustry(ts: seq<UserTemplate>) returns (crashed: bool, groups: seq<Group>)
    ensures crashed <==> GroupingThrows(ts)
    ensures !crashed ==> GroupsOf(ts, groups)
  {
    var acc, keys;
    crashed, acc, keys := CollectByIndustry(ts);
    groups := [];
    if crashed {
      return;
    }
    for i := 0 to |keys|
      invariant |groups| == i
      invariant forall j :: 0 <= j < i ==> groups[j] == Group(keys[j], acc[keys[j]])
    {
      groups := groups + [Group(keys[i], acc[keys[i]])];
    }
  }

  lemma {:induction false} IndustriesMembers(ts: seq<UserTemplate>, ind: string)
    ensures ind in Industries(ts) <==> exists t :: t in ts && t.industry == ind
  {
    if |ts| > 0 {
      var init := ts[..|ts| - 1];
      IndustriesMembers(init, ind);
      assert ts == init + [ts[|ts| - 1]];
      if exists t :: t in ts && t.industry == ind {
        var t :| t in ts && t.industry == ind;
        if t in init {
        } else {
          assert t == ts[|ts| - 1];
        }
      }
    }
  }

  /** The groups' industries are distinct. */
  lemma {:induction false} IndustriesDistinct(ts: seq<UserTemplate>)
    ensures forall i, j :: 0 <= i < j < |Industries(ts)| ==> Industries(ts)[i] != Industries(ts)[j]
  {
    if |ts| > 0 {
      IndustriesDistinct(ts[..|ts| - 1]);
    }
  }

  /** The industries of a prefix are a prefix of the industries: a group never moves ahead of one opened earlier. */
  lemma {:induction false} IndustriesOfPrefix(ts: seq<UserTemplate>, k: nat)
    requires k <= |ts|
    ensures |Industries(ts[..k])| <= |Industries(ts)|
    ensures Industries(ts[..k]) == Industries(ts)[..|Industries(ts[..k])|]
    decreases |ts| - k
  {
    if k < |ts| {
      IndustriesOfPrefix(ts, k + 1);
      GroupingStep(ts, k);
    } else {
      assert ts[..k] == ts;
    }
  }

  lemma {:induction false} WithIndustryMembers(ts: seq<UserTemplate>, ind: string)
    ensures forall t :: t in WithIndustry(ts, ind) <==> t in ts && t.industry == ind
  {
    if |ts| > 0 {
      var init := ts[..|ts| - 1];
      WithIndustryMembers(init, ind);
      assert ts == init + [ts[|ts| - 1]];
    }
  }

  /** A subsequence of a newest-first sequence is newest first. */
  lemma {:induction false} WithIndustryKeepsOrder(ts: seq<UserTemplate>, ind: string)
    requires NewestFirstOrder(ts)
    ensures NewestFirstOrder(WithIndustry(ts, ind))
  {
    if |ts| > 0 {
      var init := ts[..|ts| - 1];
      assert NewestFirstOrder(init) by {
        forall i, j | 0 <= i < j < |init| ensures init[i].createdAt >= init[j].createdAt {
          assert init[i] == ts[i] && init[j] == ts[j];
        }
      }
      WithIndustryKeepsOrder(init, ind);
      WithIndustryMembers(init, ind);
      var w := WithIndustry(init, ind);
      if ts[|ts| - 1].industry == ind {
        forall i | 0 <= i < |w| ensures w[i].createdAt >= ts[|ts| - 1].createdAt {
          assert w[i] in init;
          var m :| 0 <= m < |init| && init[m] == w[i];
          assert ts[m] == w[i];
        }
      }
    }
  }

  /**
    Every template lands in the group of its own industry and in no other,
    every group holds only templates of its industry, and no group is empty.
   */
  lemma GroupsPartition(ts: seq<UserTemplate>, groups: seq<Group>)
    requires GroupsOf(ts, groups)
    ensures forall i, t :: 0 <= i < |groups| ==> (t in groups[i].templates <==> t in ts && t.industry == groups[i].industry)
    ensures forall t :: t in ts ==> exists i :: 0 <= i < |groups| && groups[i].industry == t.industry
    ensures forall i, j :: 0 <= i < j < |groups| ==> groups[i].industry != groups[j].industry
    ensures forall i :: 0 <= i < |groups| ==> groups[i].templates != []
  {
    IndustriesDistinct(ts);
    forall i | 0 <= i < |groups|
      ensures forall t :: t in groups[i].templates <==> t in ts && t.industry == groups[i].industry
      ensures groups[i].templates != []
    {
      WithIndustryMembers(ts, groups[i].industry);
      IndustriesMembers(ts, groups[i].industry);
      assert groups[i].industry in Industries(ts);
    }
    forall t | t in ts
      ensures exists i :: 0 <= i < |groups| && groups[i].industry == t.industry
    {
      IndustriesMembers(ts, t.industry);
      var i :| 0 <= i < |Industries(ts)| && Industries(ts)[i] == t.industry;
      assert groups[i].industry == t.industry;
    }
  }

  /** No templates, no groups: the response is `[]`. */
  lemma NoTemplatesNoGroups(groups: seq<Group>)
    requires GroupsOf([], groups)
    ensures groups == []
  {
  }

  /** The `UserCreatedTemplate` table. */
  class UserTemplateStore {
    var rows: seq<UserTemplate>
    var nextId: nat

    /** Ids increase along the table and stay below the next id. */
    ghost predicate Valid()
      reads this
    {
      && (forall i :: 0 <= i < |rows| ==> rows[i].id < nextId)
      && (forall i, j :: 0 <= i < j < |rows| ==> rows[i].id < rows[j].id)
    }

    constructor()
      ensures Valid() && rows == [] && nextId == 0
    {
      rows := [];
      nextId := 0;
    }

    /** `findMany({ where: { userId: user }, orderBy: { createdAt: 'desc' } })`. */
    function FindNewestFirst(user: string): seq<UserTemplate>
      reads this
    {
      NewestFirst(OwnedBy(rows, user))
    }

    /** `create({ data })`: appends one row with a fresh id, stamped `now`. */
    method Create(userId: string, industry: string, topic: string, prompt: string, now: int) returns (r: UserTemplate)
      requires Valid()
      modifies this
      ensures Valid()
      ensures r == UserTemplate(old(nextId), userId, industry, topic, prompt, now)
      ensures rows == old(rows) + [r] && nextId == old(nextId) + 1
    {
      r := UserTemplate(nextId, userId, industry, topic, prompt, now);
      rows := rows + [r];
      nextId := nextId + 1;
    }
  }

  /**
    `GET`: 401 without a user; otherwise the user's templates, newest first,
    grouped by industry. The handler has no `catch`, so a grouping that
    throws becomes the framework's 500.
   */
  method Get(store: UserTemplateStore, session: Session) returns (reply: Reply)
    ensures !SignedIn(session) ==> reply == Unauthorized(UnauthorizedError)
    ensures SignedIn(session) && GroupingThrows(store.FindNewestFirst(session.userId.value)) ==> reply == InternalError
    ensures SignedIn(session) && !GroupingThrows(store.FindNewestFirst(session.userId.value)) ==>
              reply.Grouped? && GroupsOf(store.FindNewestFirst(session.userId.value), reply.groups)
  {
    if !SignedIn(session) {
      return Unauthorized(UnauthorizedError);
    }
    var all := store.FindNewestFirst(session.userId.value);
    var crashed, groups := GroupByIndustry(all);
    if crashed {
      return InternalError;
    }
    return Grouped(groups);
  }

  /** A user who saved a template under an inherited name, such as `toString`, gets 500 from `GET`. */
  lemma InheritedIndustryThrows(rows: seq<UserTemplate>, user: string, t: UserTemplate)
    requires t in rows && t.userId == user && t.industry in InheritedKeys
    ensures GroupingThrows(NewestFirst(OwnedBy(rows, user)))
  {
    var fetched := NewestFirst(OwnedBy(rows, user));
    assert t in multiset(OwnedBy(rows, user));
    assert t in fetched;
    var i :| 0 <= i < |fetched| && fetched[i] == t;
  }

  /** Every template `GET` shows is one of the user's, in the group of its industry. */
  lemma GetShowsOnlyOwnTemplates(rows: seq<UserTemplate>, user: string, groups: seq<Group>, i: nat, t: UserTemplate)
    requires GroupsOf(NewestFirst(OwnedBy(rows, user)), groups)
    requires i < |groups| && t in groups[i].templates
    ensures t in rows && t.userId == user && t.industry == groups[i].industry
  {
    var fetched := NewestFirst(OwnedBy(rows, user));
    WithIndustryMembers(fetched, groups[i].industry);
    assert t in multiset(fetched);
  }

  /** Every template of the user is shown, in the group of its industry. */
  lemma GetShowsEveryOwnTemplate(rows: seq<UserTemplate>, user: string, groups: seq<Group>, t: UserTemplate)
    requires GroupsOf(NewestFirst(OwnedBy(rows, user)), groups)
    requires t in rows && t.userId == user
    ensures exists i :: 0 <= i < |groups| && groups[i].industry == t.industry && t in groups[i].templates
  {
    var fetched := NewestFirst(OwnedBy(rows, user));
    assert t in multiset(OwnedBy(rows, user));
    assert t in fetched;
    IndustriesMembers(fetched, t.industry);
    var i :| 0 <= i < |Industries(fetched)| && Industries(fetched)[i] == t.industry;
    WithIndustryMembers(fetched, t.industry);
    assert t in groups[i].templates;
  }

  /** Within each group `GET` shows, templates are newest first. */
  lemma GetGroupsNewestFirst(rows: seq<UserTemplate>, user: string, groups: seq<Group>, i: nat)
    requires GroupsOf(NewestFirst(OwnedBy(rows, user)), groups)
    requires i < |groups|
    ensures NewestFirstOrder(groups[i].templates)
  {
    WithIndustryKeepsOrder(NewestFirst(OwnedBy(rows, user)), groups[i].industry);
  }

  /**
    `POST`: 401 without a user; otherwise one new row per input element, in
    order, each with the session's user, the shared industry, its topic and
    `prompt = user_prompt`, and the created rows returned with 201.
   */
  method Post(store: UserTemplateStore, session: Session, industry: string, templates: seq<TemplateInput>, clock: nat -> int)
    returns (reply: Reply)
    requires store.Valid()
    modifies store
    ensures store.Valid()
    ensures !SignedIn(session) ==> reply == Unauthorized(UnauthorizedError) && store.rows == old(store.rows) && store.nextId == old(store.nextId)
    ensures SignedIn(session) ==>
              var created := CreatedRows(old(store.nextId), session.userId.value, industry, templates, clock, |templates|);
              reply == Created(created) && store.rows == old(store.rows) + created
              && store.nextId == old(store.nextId) + |templates|
  {
    if !SignedIn(session) {
      return Unauthorized(UnauthorizedError);
    }
    var user := session.userId.value;
    var created: seq<UserTemplate> := [];
    for k := 0 to |templates|
      invariant store.Valid()
      invariant created == CreatedRows(old(store.nextId), user, industry, templates, clock, k)
      invariant store.rows == old(store.rows) + created
      invariant store.nextId == old(store.nextId) + k
    {
      var r := store.Create(user, industry, templates[k].topic, templates[k].userPrompt, clock(k));
      created := created + [r];
    }
    return Created(created);
  }

  /** The rows the first `n` creations make, ids counting up from `first`. */
  function CreatedRows(first: nat, user: string, industry: string, templates: seq<TemplateInput>, clock: nat -> int, n: nat): (r: seq<UserTemplate>)
    requires n <= |templates|
    ensures |r| == n
    ensures forall k :: 0 <= k < n ==>
              r[k] == UserTemplate(first + k, user, industry, templates[k].topic, templates[k].userPrompt, clock(k))
  {
    if n == 0 then []
    else CreatedRows(first, user, industry, templates, clock, n - 1)
         + [UserTemplate(first + n - 1, user, industry, templates[n - 1].topic, templates[n - 1].userPrompt, clock(n - 1))]
  }
}
