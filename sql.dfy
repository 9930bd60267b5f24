/** The database wrapper `Sequel` and the forward-only cursor
    `Sequel_Results` that its `select` returns. The PDO statement behind a
    cursor is the sequence of rows it yields; a count(*) query's answer is a
    parameter. */
module Sql {
  import opened Php

  /** The four kinds of statement `Sequel` prepares. */
  datatype Verb = SelectRows | InsertRows | UpdateRows | DeleteRows

  function Prefix(verb: Verb): string
  {
    match verb
    case SelectRows => "SELECT "
    case InsertRows => "INSERT INTO "
    case UpdateRows => "UPDATE "
    case DeleteRows => "DELETE FROM "
  }

  /** The text `Sequel` prepares for a call of `select`, `insert`, `update`
      or `delete` with the given query. */
  function Statement(verb: Verb, query: string): string
  {
    Prefix(verb) + query
  }

  /** The statement text determines the call that built it. */
  lemma StatementDeterminesCall(v1: Verb, q1: string, v2: Verb, q2: string)
    requires Statement(v1, q1) == Statement(v2, q2)
    ensures v1 == v2 && q1 == q2
  {
    var s := Statement(v1, q1);
    assert s[0] == Prefix(v1)[0] == Prefix(v2)[0];
    assert v1 == v2;
    assert q1 == s[|Prefix(v1)|..] == q2;
  }

  const From := "FROM"

  /** `extract_select_predicate($query)`, i.e. `substr($query,
      strpos($query, "FROM"))`: the query from its first "FROM" onwards.
      When there is no "FROM", `strpos` gives `false`, which `substr` reads
      as offset 0, so the whole query comes back. */
  function ExtractSelectPredicate(query: string): (r: string)
    ensures |r| <= |query| && r == query[|query| - |r|..]
    ensures !Contains(query, From) ==> r == query
    ensures Contains(query, From) ==> OccursAt(r, From, 0)
    ensures Contains(query, From) ==> forall j :: 0 <= j < |query| - |r| ==> !OccursAt(query, From, j)
  {
    match Strpos(query, From)
    case None => query
    case Some(i) =>
      assert query[i..][0..|From|] == query[i..i + |From|];
      query[i..]
  }

  /** The predicate starts at the first "FROM", wherever that is. */
  lemma PredicateAtFirstFrom(query: string, i: nat)
    requires OccursAt(query, From, i)
    requires forall j :: 0 <= j < i ==> !OccursAt(query, From, j)
    ensures ExtractSelectPredicate(query) == query[i..]
  {
  }

  /** The count(*) query built from a cursor's predicate. */
  function CountStatement(predicate': string): string
  {
    "SELECT count(*) " + predicate'
  }

  /** No "FROM" starts inside the "SELECT " prefix of a select statement. */
  lemma NoFromInSelectPrefix(query: string)
    ensures forall j :: 0 <= j < |Prefix(SelectRows)| ==> !OccursAt(Statement(SelectRows, query), From, j)
  {
    var s := Statement(SelectRows, query);
    forall j | 0 <= j < |Prefix(SelectRows)|
      ensures !OccursAt(s, From, j)
    {
      if OccursAt(s, From, j) {
        OccurrenceHead(s, From, j);
        assert false;
      }
    }
  }

  /** Hence the predicate of a select statement is the predicate of its
      query, or the whole statement when the query has no "FROM". */
  lemma SelectStatementPredicate(query: string)
    ensures ExtractSelectPredicate(Statement(SelectRows, query))
            == if Contains(query, From) then ExtractSelectPredicate(query) else Statement(SelectRows, query)
  {
    var p := Prefix(SelectRows);
    var s := Statement(SelectRows, query);
    NoFromInSelectPrefix(query);
    OccurrencesPastPrefix(p, query, From);
    match Strpos(query, From)
    case None =>
      assert !Contains(s, From) by {
        forall j | 0 <= j <= |s|
          ensures !OccursAt(s, From, j)
        {
          if |p| <= j {
            assert !OccursAt(query, From, j - |p|);
          }
        }
      }
    case Some(i) =>
      PredicateAtFirstFrom(query, i);
      PredicateAtFirstFrom(s, i + |p|);
      assert s[i + |p|..] == query[i..];
  }

  /** A column value as PDO hands it out. */
  datatype Value = Null | Int(i: int) | Text(s: string)

  /** A row fetched in `PDO::FETCH_ASSOC` mode: column name to value. */
  type Record = map<string, Value>

  /** What `fetch()` returns: a row, or `false` past the last row. */
  datatype Fetched = Row(record: Record) | False

  /** PHP truthiness of a fetched value: `false` and the empty array are
      both falsy. */
  predicate Truthy(f: Fetched)
  {
    f.Row? && f.record != map[]
  }

  /** The `k`-th row of a result set, or `false` when there is none. */
  function At(rows: seq<Record>, k: int): Fetched
  {
    if 0 <= k < |rows| then Row(rows[k]) else False
  }

  /** The rows that `while ($row = $this->next())` collects: all of them up
      to the first empty (falsy) row. */
  function LeadingRows(rows: seq<Record>): (r: seq<Record>)
    ensures |r| <= |rows| && r == rows[..|r|]
    ensures forall i :: 0 <= i < |r| ==> r[i] != map[]
    ensures |r| < |rows| ==> rows[|r|] == map[]
  {
    if rows == [] || rows[0] == map[] then [] else [rows[0]] + LeadingRows(rows[1..])
  }

  /** With no empty row among them, every row is collected. */
  lemma LeadingRowsOfNonEmptyRows(rows: seq<Record>)
    requires forall i :: 0 <= i < |rows| ==> rows[i] != map[]
    ensures LeadingRows(rows) == rows
  {
  }

  /** Positions in the rows from `start` on are positions in the whole
      result set, shifted by `start`. */
  lemma AtSuffix(rows: seq<Record>, start: nat, n: nat)
    ensures At(rows, start + n) == At(if start < |rows| then rows[start..] else [], n)
  {
  }

  /** One more row is collected when the next row is non-empty. */
  lemma LeadingRowsStep(rows: seq<Record>, n: nat, collected: seq<Record>)
    requires n < |rows| && rows[n] != map[]
    ensures collected + LeadingRows(rows[n..]) == (collected + [rows[n]]) + LeadingRows(rows[n + 1..])
  {
  }

  /** Collection stops at the end or at an empty row. */
  lemma LeadingRowsStop(rows: seq<Record>, n: nat)
    requires n <= |rows|
    requires !Truthy(At(rows, n))
    ensures LeadingRows(rows[n..]) == []
  {
  }

  /** `Sequel_Results`: a forward-only iterator over the rows of an executed
      select. `key` counts the calls of `next()` since construction and
      `current` holds the row at that position, or `false` once the rows
      run out. */
  class SequelResults {
    /** The rows the executed statement yields, in order. */
    ghost const source: seq<Record>
    /** The rows the PDO statement has not yet handed out. */
    var pending: seq<Record>
    const selectPredicate: string
    const values: seq<Value>
    var count: Option<int>
    var key: int
    var current: Fetched
    /** The count(*) queries sent to the database so far, each with the
        values it was executed with. */
    ghost var issued: seq<(string, seq<Value>)>

    /** The fields agree with the row source at position `key`. */
    ghost predicate Tracks()
      reads this
    {
      -1 <= key
      && current == At(source, key)
      && pending == source[Min(key + 1, |source|)..]
    }

    ghost predicate Valid()
      reads this
    {
      Tracks() && 0 <= key
    }

    /** The rows from the current one to the end. */
    ghost function Remaining(): seq<Record>
      reads this
      requires Valid()
    {
      if key < |source| then source[key..] else []
    }

    /** `__construct`: records the statement's rows, predicate and values
        and calls `next()` once, which moves the key from -1 to 0 and
        fetches the first row. (Before that call PHP's `current` is null;
        it is never observed.) */
    constructor (rows: seq<Record>, statement: string, values: seq<Value>)
      ensures Valid() && source == rows
      ensures key == 0 && current == At(rows, 0)
      ensures selectPredicate == ExtractSelectPredicate(statement) && this.values == values
      ensures count == None && issued == []
    {
      source := rows;
      pending := rows;
      selectPredicate := ExtractSelectPredicate(statement);
      this.values := values;
      count := None;
      key := -1;
      current := False;
      issued := [];
      new;
      var first := Next();
    }

    /** The PDO statement's `fetch()`: the next row, or `false` for good
        once none is left. */
    method Fetch() returns (f: Fetched)
      modifies this`pending
      ensures old(pending) == [] ==> f == False && pending == []
      ensures old(pending) != [] ==> f == Row(old(pending)[0]) && pending == old(pending)[1..]
    {
      if pending == [] {
        f := False;
      } else {
        f := Row(pending[0]);
        pending := pending[1..];
      }
    }

    /** `next()`: returns the row that was current, moves the key on by
        one and fetches the row at the new key. */
    method Next() returns (hold: Fetched)
      requires Tracks()
      modifies this`key, this`current, this`pending
      ensures Valid()
      ensures key == old(key) + 1 && hold == old(current)
      ensures current == At(source, key)
      ensures 0 <= old(key) && old(current) == False ==> current == False
    {
      key := key + 1;
      hold := current;
      current := Fetch();
    }

    /** `valid()`: `current !== false`, which holds exactly while rows
        remain. */
    function IsValid(): (b: bool)
      reads this
      requires Valid()
      ensures b <==> key < |source|
      ensures b <==> Remaining() != []
    {
      current != False
    }

    /** `current()`: the row at the key's position, or `false`. */
    function Current(): (c: Fetched)
      reads this
      requires Valid()
      ensures c == At(source, key)
      ensures c.Row? <==> Remaining() != [] && c.record == Remaining()[0]
    {
      current
    }

    /** `key()`: the position, in the result set, of the current row. */
    function Key(): (k: int)
      reads this
      requires Valid()
      ensures 0 <= k && k == key
      ensures Current() == At(source, k)
    {
      key
    }

    /** `rewind()`: allowed only while the cursor still stands on its
        first row, where it changes nothing; anywhere else it throws. */
    function Rewind(): (r: Outcome<string>)
      reads this
      requires Valid()
      ensures r.Pass? <==> key == 0
      ensures r.Pass? ==> Current() == At(source, 0) && Remaining() == source
      ensures r.Fail? ==> r.error == "Sequel_Results does not support rewind."
    {
      if key != 0 then Fail("Sequel_Results does not support rewind.") else Pass
    }

    /** `to_array()`: calls `next()` until it returns a falsy value,
        collecting every row before that one. */
    method ToArray() returns (rows: seq<Record>)
      requires Valid()
      modifies this`key, this`current, this`pending
      ensures Valid()
      ensures rows == LeadingRows(old(Remaining()))
      ensures key == old(key) + |rows| + 1
      ensures rows == old(Remaining()) ==> !IsValid()
    {
      ghost var start := key;
      ghost var rest := Remaining();
      rows := [];
      var row := Next();
      assert row == At(rest, 0) by { AtSuffix(source, start, 0); }
      while Truthy(row)
        invariant Valid()
        invariant |rows| <= |rest|
        invariant key == start + |rows| + 1
        invariant row == At(rest, |rows|)
        invariant LeadingRows(rest) == rows + LeadingRows(rest[|rows|..])
        decreases |rest| - |rows|
      {
        assert LeadingRows(rest) == (rows + [row.record]) + LeadingRows(rest[|rows| + 1..]) by {
          LeadingRowsStep(rest, |rows|, rows);
        }
        rows := rows + [row.record];
        row := Next();
        assert row == At(rest, |rows|) by { AtSuffix(source, start, |rows|); }
      }
      assert LeadingRows(rest[|rows|..]) == [] by { LeadingRowsStop(rest, |rows|); }
    }

    /** `count()`: the first call sends a count(*) query built from the
        cursor's predicate and caches its answer `dbCount`; later calls
        return the cached number and send nothing. */
    method Count(dbCount: int) returns (n: int)
      modifies this`count, this`issued
      ensures old(count).Some? ==> n == old(count).value && count == old(count) && issued == old(issued)
      ensures old(count).None? ==> n == dbCount && count == Some(dbCount)
                                   && issued == old(issued) + [(CountStatement(selectPredicate), values)]
    {
      if count == None {
        issued := issued + [(CountStatement(selectPredicate), values)];
        count := Some(dbCount);
      }
      n := count.value;
    }
  }

  /** `Sequel::select($query, $values)`: prepares "SELECT " followed by the
      query, executes it (yielding `rows`) and wraps it in a cursor. */
  method Select(query: string, values: seq<Value>, rows: seq<Record>) returns (results: SequelResults)
    ensures fresh(results) && results.Valid()
    ensures results.source == rows && results.key == 0 && results.Current() == At(rows, 0)
    ensures results.selectPredicate == ExtractSelectPredicate(Statement(SelectRows, query))
    ensures results.values == values && results.count == None
  {
    results := new SequelResults(rows, Statement(SelectRows, query), values);
  }
}
