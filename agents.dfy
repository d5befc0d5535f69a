/**
  The data agents: `IndustryLister`, a constant list, and `DBWriter`, which
  inserts a batch of templates into the `Template` table inside one
  transaction with `ON CONFLICT DO NOTHING` on the primary key `id`. The
  clock (`datetime.utcnow()`) is a parameter giving the time of each write.
  The items are decoded JSON objects, so a column may receive any JSON
  value; how the driver and the database turn a number, a boolean or a list
  into the text of a `String` column is a parameter too.
 */
module DataAgents {
  import opened Wrappers
  import opened Json

  /** What `IndustryLister.run` returns, whatever its input. */
  const Industries: seq<string> := ["E-commerce", "Healthcare", "Legal", "Finance", "Education"]

  /** `IndustryLister.run(_)`: the fixed list, for any input. */
  function ListIndustries<T>(input: T): (r: seq<string>)
    ensures |r| == 5 && r[0] == "E-commerce" && r[4] == "Education"
    ensures forall i, j :: 0 <= i < j < |r| ==> r[i] != r[j]
  {
    Industries
  }

  /** A row of `Template`, keyed by its `id`. */
  datatype Row = Row(industry: string, name: string, description: string, prompt: string, createdAt: int)

  /** A template dictionary handed to `DBWriter.run`: a decoded JSON object. */
  type Item = map<string, Json>

  /**
    How the driver adapts a number, a boolean or a list and the database
    casts it into a text column: the stored text, or `None` when the
    statement fails.
   */
  type Cast = Json -> Option<string>

  /**
    The text a `String` column stores for a value, or `None` when the
    statement fails: a string is stored as is; `None` breaks the columns'
    `NOT NULL` (and the primary key); a dict cannot be adapted by the
    driver; anything else goes through `cast`.
   */
  function Cell(cast: Cast, v: Json): Option<string> {
    match v
    case JStr(s) => Some(s)
    case JNull => None
    case JObj(_) => None
    case _ => cast(v)
  }

  /** Column `c` of item `t` is present (no `KeyError`) and storable (no database error). */
  predicate Storable(cast: Cast, t: Item, c: string) {
    c in t && Cell(cast, t[c]).Some?
  }

  /** The statement for `t` succeeds: every column `DBWriter.run` reads is present and storable. */
  predicate Insertable(cast: Cast, t: Item) {
    && Storable(cast, t, "id")
    && Storable(cast, t, "industry")
    && Storable(cast, t, "name")
    && Storable(cast, t, "description")
    && Storable(cast, t, "prompt")
  }

  /** The stored primary key of an insertable item. */
  function Id(cast: Cast, t: Item): string
    requires Insertable(cast, t)
  {
    Cell(cast, t["id"]).value
  }

  function RowOf(cast: Cast, t: Item, now: int): Row
    requires Insertable(cast, t)
  {
    Row(Cell(cast, t["industry"]).value, Cell(cast, t["name"]).value,
        Cell(cast, t["description"]).value, Cell(cast, t["prompt"]).value, now)
  }

  /** Every one of the first `n` items is insertable. */
  predicate AllInsertable(cast: Cast, items: seq<Item>, n: nat)
    requires n <= |items|
  {
    forall k :: 0 <= k < n ==> Insertable(cast, items[k])
  }

  /** A batch whose five columns are all strings is insertable, whatever the cast. */
  lemma StringItemsInsertable(cast: Cast, items: seq<Item>)
    requires forall k :: 0 <= k < |items| ==>
               forall c :: c in ["id", "industry", "name", "description", "prompt"] ==> c in items[k] && items[k][c].JStr?
    ensures AllInsertable(cast, items, |items|)
  {
    forall k | 0 <= k < |items|
      ensures Insertable(cast, items[k])
    {
      var t := items[k];
      assert "id" in ["id", "industry", "name", "description", "prompt"];
      assert "industry" in ["id", "industry", "name", "description", "prompt"];
      assert "name" in ["id", "industry", "name", "description", "prompt"];
      assert "description" in ["id", "industry", "name", "description", "prompt"];
      assert "prompt" in ["id", "industry", "name", "description", "prompt"];
    }
  }

  /** One item with a missing column, a `None` or a dict in a column makes the whole batch fail. */
  lemma UnstorableItemFailsBatch(cast: Cast, items: seq<Item>, k: nat, c: string)
    requires k < |items|
    requires c in ["id", "industry", "name", "description", "prompt"]
    requires c !in items[k] || items[k][c].JNull? || items[k][c].JObj?
    ensures !AllInsertable(cast, items, |items|)
  {
    assert !Insertable(cast, items[k]);
  }

  /**
    The table after the first `n` insert-or-skip statements: an item whose
    id is already present changes nothing, an item with a new id adds its
    row, stamped with the time of its write.
   */
  function InsertAll(cast: Cast, rows: map<string, Row>, items: seq<Item>, clock: nat -> int, n: nat): map<string, Row>
    requires n <= |items| && AllInsertable(cast, items, n)
  {
    if n == 0 then rows
    else
      var before := InsertAll(cast, rows, items, clock, n - 1);
      var t := items[n - 1];
      if Id(cast, t) in before then before else before[Id(cast, t) := RowOf(cast, t, clock(n - 1))]
  }

  /** The ids of the first `n` items. */
  function Ids(cast: Cast, items: seq<Item>, n: nat): set<string>
    requires n <= |items| && AllInsertable(cast, items, n)
  {
    if n == 0 then {} else Ids(cast, items, n - 1) + {Id(cast, items[n - 1])}
  }

  /** An id is among the first `n` ids exactly when one of the first `n` items carries it. */
  lemma {:induction false} IdsMembers(cast: Cast, items: seq<Item>, n: nat, id: string)
    requires n <= |items| && AllInsertable(cast, items, n)
    ensures id in Ids(cast, items, n) <==> exists k :: 0 <= k < n && Id(cast, items[k]) == id
  {
    if n > 0 {
      IdsMembers(cast, items, n - 1, id);
    }
  }

  /** The batch adds exactly the ids that were not there yet, and no other row. */
  lemma {:induction false} InsertAllKeys(cast: Cast, rows: map<string, Row>, items: seq<Item>, clock: nat -> int, n: nat)
    requires n <= |items| && AllInsertable(cast, items, n)
    ensures InsertAll(cast, rows, items, clock, n).Keys == rows.Keys + Ids(cast, items, n)
  {
    if n > 0 {
      InsertAllKeys(cast, rows, items, clock, n - 1);
      var before := InsertAll(cast, rows, items, clock, n - 1);
      var id := Id(cast, items[n - 1]);
      assert Ids(cast, items, n) == Ids(cast, items, n - 1) + {id};
      if id !in before {
        assert before[id := RowOf(cast, items[n - 1], clock(n - 1))].Keys == before.Keys + {id};
      }
    }
  }

  /** A row that was there before the batch is left exactly as it was. */
  lemma {:induction false} ExistingRowsUnchanged(cast: Cast, rows: map<string, Row>, items: seq<Item>, clock: nat -> int, n: nat, id: string)
    requires n <= |items| && AllInsertable(cast, items, n)
    requires id in rows
    ensures id in InsertAll(cast, rows, items, clock, n) && InsertAll(cast, rows, items, clock, n)[id] == rows[id]
  {
    if n > 0 {
      ExistingRowsUnchanged(cast, rows, items, clock, n - 1, id);
    }
  }

  /**
    A new id gets the row of the first item that carries it, written at that
    item's time; later items with the same id are skipped, not rejected.
   */
  lemma {:induction false} FirstItemWins(cast: Cast, rows: map<string, Row>, items: seq<Item>, clock: nat -> int, n: nat, j: nat)
    requires j < n <= |items| && AllInsertable(cast, items, n)
    requires Id(cast, items[j]) !in rows
    requires forall i :: 0 <= i < j ==> Id(cast, items[i]) != Id(cast, items[j])
    ensures var id := Id(cast, items[j]);
            id in InsertAll(cast, rows, items, clock, n) && InsertAll(cast, rows, items, clock, n)[id] == RowOf(cast, items[j], clock(j))
  {
    var id := Id(cast, items[j]);
    if n == j + 1 {
      InsertAllKeys(cast, rows, items, clock, j);
      IdsMembers(cast, items, j, id);
    } else {
      FirstItemWins(cast, rows, items, clock, n - 1, j);
    }
  }

  /**
    Running the same batch again, at any later time, changes nothing: every
    id of the batch is already present, so every statement is skipped.
   */
  lemma RerunChangesNothing(cast: Cast, rows: map<string, Row>, items: seq<Item>, first: nat -> int, second: nat -> int)
    requires AllInsertable(cast, items, |items|)
    ensures var once := InsertAll(cast, rows, items, first, |items|);
            InsertAll(cast, once, items, second, |items|) == once
  {
    var once := InsertAll(cast, rows, items, first, |items|);
    var twice := InsertAll(cast, once, items, second, |items|);
    InsertAllKeys(cast, rows, items, first, |items|);
    InsertAllKeys(cast, once, items, second, |items|);
    assert twice.Keys == once.Keys;
    forall id | id in once
      ensures twice[id] == once[id]
    {
      ExistingRowsUnchanged(cast, once, items, second, |items|, id);
    }
  }

  /** The `Template` table. */
  class TemplateTable {
    var rows: map<string, Row>

    constructor(initial: map<string, Row>)
      ensures rows == initial
    {
      rows := initial;
    }

    /**
      `DBWriter.run(items)`: all statements run in one transaction. An item
      missing a column raises `KeyError`, and a value the column cannot
      store fails its statement; either way the transaction rolls back and
      nothing of the batch is kept. Otherwise every statement is committed.
     */
    method Run(items: seq<Item>, cast: Cast, clock: nat -> int) returns (committed: bool)
      modifies this
      ensures committed <==> AllInsertable(cast, items, |items|)
      ensures committed ==> rows == InsertAll(cast, old(rows), items, clock, |items|)
      ensures !committed ==> rows == old(rows)
    {
      var pending := rows;
      for k := 0 to |items|
        invariant AllInsertable(cast, items, k)
        invariant pending == InsertAll(cast, rows, items, clock, k)
      {
        var t := items[k];
        if !Insertable(cast, t) {
          return false;
        }
        if Id(cast, t) !in pending {
          pending := pending[Id(cast, t) := RowOf(cast, t, clock(k))];
        }
      }
      rows := pending;
      return true;
    }
  }
}
