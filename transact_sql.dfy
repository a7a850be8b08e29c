/**
 * The generic stored-procedure service: it builds `CALL <procedure>(:k1, :k2, …)`
 * from a procedure name and the keys of a parameter object, sends the values
 * separately as named replacements, and shapes what the store answers.
 */
module TransactSQL {
  import opened Wrappers
  import opened Store

  // ---------------------------------------------------------------------------
  // The statement builder
  // ---------------------------------------------------------------------------

  /** `parts.join(sep)`: the empty array joins to "", one part to itself. */
  function Join(sep: string, parts: seq<string>): string
  {
    if |parts| == 0 then ""
    else if |parts| == 1 then parts[0]
    else parts[0] + sep + Join(sep, parts[1..])
  }

  /** The named placeholder for one key. */
  function Placeholder(key: string): string
  {
    ":" + key
  }

  /** `keys.map(key => ":" + key)`. */
  function PlaceholderList(keys: seq<string>): seq<string>
  {
    seq(|keys|, i requires 0 <= i < |keys| => Placeholder(keys[i]))
  }

  /** The placeholder text, empty exactly when there are no keys. */
  function Placeholders(keys: seq<string>): (text: string)
    ensures text == "" <==> keys == []
  {
    Join(", ", PlaceholderList(keys))
  }

  /**
   * The statement text. The conditional of the source is redundant: an empty
   * placeholder text gives the same `()` as its `else` branch.
   */
  function CallStatement(procedure: string, keys: seq<string>): (sql: string)
    ensures sql == "CALL " + procedure + "(" + Placeholders(keys) + ")"
    ensures keys == [] ==> sql == "CALL " + procedure + "()"
    ensures |sql| >= 7 + |procedure|
  {
    var placeholders := Placeholders(keys);
    if placeholders != "" then "CALL " + procedure + "(" + placeholders + ")"
    else "CALL " + procedure + "()"
  }

  // ---------------------------------------------------------------------------
  // Reading a statement back: the partner of the builder
  // ---------------------------------------------------------------------------

  /** A procedure call as the store reads it: a name and argument names. */
  datatype Call = Call(procedure: string, arguments: seq<string>)

  /** The index of the first `c` in `s`, or `|s|` when there is none. */
  function IndexOf(s: string, c: char): (i: nat)
    ensures i <= |s|
    ensures i < |s| ==> s[i] == c
    ensures forall j :: 0 <= j < i ==> s[j] != c
  {
    if s == [] then 0
    else if s[0] == c then 0
    else 1 + IndexOf(s[1..], c)
  }

  /** Reads ":n1, :n2, …" back into the names, or `None` if malformed. */
  function ParseNames(text: string): Option<seq<string>>
    decreases |text|
  {
    if |text| == 0 || text[0] != ':' then None
    else
      var body := text[1..];
      var comma := IndexOf(body, ',');
      if comma == |body| then Some([body])
      else if comma + 1 < |body| && body[comma + 1] == ' ' then
        match ParseNames(body[comma + 2..])
        case None => None
        case Some(rest) => Some([body[..comma]] + rest)
      else None
  }

  /** The text between the parentheses: empty, or a list of placeholders. */
  function ParseArguments(text: string): Option<seq<string>>
  {
    if text == "" then Some([]) else ParseNames(text)
  }

  /** Reads "CALL name(args)" back, splitting at the first parenthesis. */
  function ParseCall(sql: string): Option<Call>
  {
    if |sql| < 6 || sql[..5] != "CALL " || sql[|sql| - 1] != ')' then None
    else
      var inner := sql[5..|sql| - 1];
      var open := IndexOf(inner, '(');
      if open == |inner| then None
      else
        match ParseArguments(inner[open + 1..])
        case None => None
        case Some(arguments) => Some(Call(inner[..open], arguments))
  }

  /** Keys that can be read back from a comma-separated list. */
  predicate PlainKeys(keys: seq<string>)
  {
    forall k :: k in keys ==> ',' !in k
  }

  lemma IndexOfFirst(a: string, c: char, b: string)
    requires c !in a
    ensures IndexOf(a + [c] + b, c) == |a|
  {
    var s := a + [c] + b;
    assert s[|a|] == c;
    forall j | 0 <= j < |a| ensures s[j] != c {
      assert s[j] == a[j] && a[j] in a;
    }
  }

  lemma IndexOfAbsent(s: string, c: char)
    requires c !in s
    ensures IndexOf(s, c) == |s|
  {
    forall j | 0 <= j < |s| ensures s[j] != c {
      assert s[j] in s;
    }
  }

  /** A single placeholder reads back as its key. */
  lemma ParseSingle(key: string)
    requires ',' !in key
    ensures ParseNames(":" + key) == Some([key])
  {
    assert (":" + key)[1..] == key;
    IndexOfAbsent(key, ',');
  }

  /** A leading placeholder followed by ", " reads back ahead of the rest. */
  lemma ParseLeading(key: string, rest: string)
    requires ',' !in key
    ensures ParseNames(":" + key + ", " + rest) ==
      match ParseNames(rest)
      case None => None
      case Some(names) => Some([key] + names)
  {
    var text := ":" + key + ", " + rest;
    var body := text[1..];
    assert body == key + [','] + (" " + rest);
    IndexOfFirst(key, ',', " " + rest);
    assert body[|key| + 1] == ' ';
    assert body[..|key|] == key;
    assert body[|key| + 2..] == rest;
  }

  lemma PlaceholdersCons(keys: seq<string>)
    requires |keys| >= 2
    ensures Placeholders(keys) == ":" + keys[0] + ", " + Placeholders(keys[1..])
  {
    assert PlaceholderList(keys)[1..] == PlaceholderList(keys[1..]);
  }

  /** Every key comes back, in order, one placeholder per key. */
  lemma {:induction false} NamesRoundTrip(keys: seq<string>)
    requires keys != [] && PlainKeys(keys)
    ensures ParseNames(Placeholders(keys)) == Some(keys)
  {
    assert keys[0] in keys;
    if |keys| == 1 {
      assert Placeholders(keys) == ":" + keys[0];
      ParseSingle(keys[0]);
      assert keys == [keys[0]];
    } else {
      PlaceholdersCons(keys);
      ParseLeading(keys[0], Placeholders(keys[1..]));
      assert PlainKeys(keys[1..]) by {
        forall k | k in keys[1..] ensures ',' !in k {
          assert k in keys;
        }
      }
      NamesRoundTrip(keys[1..]);
      assert [keys[0]] + keys[1..] == keys;
    }
  }

  /**
   * The statement names the procedure and exactly the keys, in key order;
   * the parameter values appear nowhere in it.
   */
  lemma CallRoundTrip(procedure: string, keys: seq<string>)
    requires '(' !in procedure && PlainKeys(keys)
    ensures ParseCall(CallStatement(procedure, keys)) == Some(Call(procedure, keys))
  {
    var sql := CallStatement(procedure, keys);
    var text := Placeholders(keys);
    assert sql[..5] == "CALL ";
    var inner := sql[5..|sql| - 1];
    assert inner == procedure + ['('] + text;
    IndexOfFirst(procedure, '(', text);
    assert inner[..|procedure|] == procedure;
    assert inner[|procedure| + 1..] == text;
    if keys != [] {
      NamesRoundTrip(keys);
    }
  }

  // ---------------------------------------------------------------------------
  // The requests each method sends
  // ---------------------------------------------------------------------------

  /** `singleQuery`: the built statement, replacements, SELECT, raw. */
  function SingleQueryRequest(procedure: string, parameters: Parameters): Query
  {
    Query(CallStatement(procedure, Keys(parameters)), Some(parameters), Some(Select), true)
  }

  /** `listQuery`: the built statement, replacements, SELECT, raw. */
  function ListQueryRequest(procedure: string, parameters: Parameters): Query
  {
    Query(CallStatement(procedure, Keys(parameters)), Some(parameters), Some(Select), true)
  }

  /** `executeQuery`: the built statement, replacements, RAW type. */
  function ExecuteQueryRequest(procedure: string, parameters: Parameters): Query
  {
    Query(CallStatement(procedure, Keys(parameters)), Some(parameters), Some(Raw), false)
  }

  /** `singleQueryAsync`: a literal parameterless call with only `raw` set. */
  function SingleQueryAsyncRequest(procedure: string): Query
  {
    Query("CALL " + procedure + "()", None, None, true)
  }

  /** `rawQuery`: the caller's own text with replacements and query type. */
  function RawQueryRequest(sql: string, parameters: Parameters, queryType: QueryType): Query
  {
    Query(sql, Some(parameters), Some(queryType), true)
  }

  /**
   * The three copies of the builder agree: all three methods send the same
   * statement, built from the procedure and the keys alone, and pass the
   * parameter object itself as the replacements.
   */
  lemma SharedStatement(procedure: string, parameters: Parameters)
    ensures SingleQueryRequest(procedure, parameters).sql == CallStatement(procedure, Keys(parameters))
    ensures ListQueryRequest(procedure, parameters).sql == CallStatement(procedure, Keys(parameters))
    ensures ExecuteQueryRequest(procedure, parameters).sql == CallStatement(procedure, Keys(parameters))
    ensures SingleQueryRequest(procedure, parameters).replacements == Some(parameters)
    ensures ListQueryRequest(procedure, parameters).replacements == Some(parameters)
    ensures ExecuteQueryRequest(procedure, parameters).replacements == Some(parameters)
    ensures SingleQueryRequest(procedure, parameters) == ListQueryRequest(procedure, parameters)
  {
  }

  /** Two parameter objects with the same keys give the same statement. */
  lemma StatementIgnoresValues(procedure: string, p1: Parameters, p2: Parameters)
    requires Keys(p1) == Keys(p2)
    ensures SingleQueryRequest(procedure, p1).sql == SingleQueryRequest(procedure, p2).sql
    ensures ListQueryRequest(procedure, p1).sql == ListQueryRequest(procedure, p2).sql
    ensures ExecuteQueryRequest(procedure, p1).sql == ExecuteQueryRequest(procedure, p2).sql
  {
  }

  /** `singleQueryAsync` sends the statement the builder makes for no keys. */
  lemma AsyncStatement(procedure: string)
    ensures SingleQueryAsyncRequest(procedure).sql == CallStatement(procedure, [])
    ensures SingleQueryAsyncRequest(procedure).sql == SingleQueryRequest(procedure, []).sql
  {
  }

  /** With the default `parameters = {}` the request is a parameterless call. */
  lemma NoParametersRequest(procedure: string)
    ensures SingleQueryRequest(procedure, []) == Query("CALL " + procedure + "()", Some([]), Some(Select), true)
  {
    assert Keys([]) == [];
  }

  // ---------------------------------------------------------------------------
  // The operations
  // ---------------------------------------------------------------------------

  /** `singleQuery`: the first row, or null; a store failure is rethrown. */
  function SingleQuery(db: Connection, procedure: string, parameters: Parameters): (r: Result<Option<Row>>)
    ensures var answer := db(SingleQueryRequest(procedure, parameters));
      && (r.Err? <==> answer.Err?)
      && (answer.Err? ==> r.error == answer.error)
      && (r.Ok? && r.value.Some? ==>
            answer.value.results.Some? && |answer.value.results.value| > 0
            && r.value.value == answer.value.results.value[0])
      && (r == Ok(None) <==>
            answer.Ok? && (answer.value.results.None? || answer.value.results.value == []))
  {
    match db(SingleQueryRequest(procedure, parameters))
    case Err(e) => Err(e)
    case Ok(answer) =>
      if answer.results.Some? && |answer.results.value| > 0 then Ok(Some(answer.results.value[0]))
      else Ok(None)
  }

  /** `listQuery`: the rows, or `[]` when absent; a store failure is rethrown. */
  function ListQuery(db: Connection, procedure: string, parameters: Parameters): (r: Result<seq<Row>>)
    ensures var answer := db(ListQueryRequest(procedure, parameters));
      && (r.Err? <==> answer.Err?)
      && (answer.Err? ==> r.error == answer.error)
      && (answer.Ok? && answer.value.results.Some? ==> r == Ok(answer.value.results.value))
      && (answer.Ok? && answer.value.results.None? ==> r == Ok([]))
  {
    match db(ListQueryRequest(procedure, parameters))
    case Err(e) => Err(e)
    case Ok(answer) =>
      match answer.results
      case Some(rows) => Ok(rows)
      case None => Ok([])
  }

  /** `executeQuery`: nothing on success; a store failure is rethrown. */
  function ExecuteQuery(db: Connection, procedure: string, parameters: Parameters): (r: Result<()>)
    ensures var answer := db(ExecuteQueryRequest(procedure, parameters));
      && (r.Err? <==> answer.Err?)
      && (answer.Err? ==> r.error == answer.error)
  {
    match db(ExecuteQueryRequest(procedure, parameters))
    case Err(e) => Err(e)
    case Ok(_) => Ok(())
  }

  /**
   * `singleQueryAsync`: the affected-row count when the store reports one,
   * otherwise 0; it never throws, a store failure also gives 0.
   */
  function SingleQueryAsync(db: Connection, procedure: string): (affected: nat)
    ensures var answer := db(SingleQueryAsyncRequest(procedure));
      && (answer.Err? ==> affected == 0)
      && (affected != 0 ==>
            answer.Ok? && answer.value.metadata == Some(Metadata(Some(affected))))
      && (answer.Ok? && answer.value.metadata.Some? && answer.value.metadata.value.affectedRows.Some? ==>
            affected == answer.value.metadata.value.affectedRows.value)
  {
    match db(SingleQueryAsyncRequest(procedure))
    case Err(_) => 0
    case Ok(answer) =>
      match answer.metadata
      case None => 0
      case Some(metadata) =>
        match metadata.affectedRows
        case None => 0
        case Some(n) => n
  }

  /** `rawQuery`: the caller's text, element 0 of the answer; failures rethrown. */
  function RawQuery(db: Connection, sql: string, parameters: Parameters, queryType: QueryType): (r: Result<Option<seq<Row>>>)
    ensures var answer := db(RawQueryRequest(sql, parameters, queryType));
      && (r.Err? <==> answer.Err?)
      && (answer.Err? ==> r.error == answer.error)
      && (answer.Ok? ==> r.value == answer.value.results)
  {
    match db(RawQueryRequest(sql, parameters, queryType))
    case Err(e) => Err(e)
    case Ok(answer) => Ok(answer.results)
  }

  /** The default query type of `rawQuery`. */
  const DefaultRawQueryType: QueryType := Select

  /** `rawQuery(sql)` with its defaults sends the caller's text as a raw SELECT with empty replacements. */
  lemma RawQueryDefaults(sql: string)
    ensures RawQueryRequest(sql, [], DefaultRawQueryType) == Query(sql, Some([]), Some(Select), true)
    ensures RawQueryRequest(sql, [], DefaultRawQueryType).sql == sql
  {
  }

  /**
   * `singleQuery` is the head of what `listQuery` returns for the same call:
   * both send the same request, so they fail together, and on success the
   * single row is the first listed row, or null when the list is empty.
   */
  lemma SingleIsHeadOfList(db: Connection, procedure: string, parameters: Parameters)
    ensures SingleQuery(db, procedure, parameters).Err? <==> ListQuery(db, procedure, parameters).Err?
    ensures ListQuery(db, procedure, parameters).Err? ==>
      SingleQuery(db, procedure, parameters).error == ListQuery(db, procedure, parameters).error
    ensures ListQuery(db, procedure, parameters).Ok? ==>
      var rows := ListQuery(db, procedure, parameters).value;
      SingleQuery(db, procedure, parameters) == Ok(if rows == [] then None else Some(rows[0]))
  {
    SharedStatement(procedure, parameters);
  }
}
