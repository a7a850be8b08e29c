/**
 * The interface of the relational store as the services see it: one
 * `sequelize.query(sql, options)` call that resolves to an answer or throws.
 * The store itself is not modelled; it is a parameter of every operation.
 */
module Store {
  import opened Wrappers

  /** A scalar value carried by a named replacement or a result column. */
  datatype Value = Null | Bool(b: bool) | Number(n: int) | Text(s: string)

  /** One row of a result set (a plain object with column names as keys). */
  type Row = map<string, Value>

  /** One own property of the `parameters` object. */
  datatype Binding = Binding(key: string, value: Value)

  /** An object never holds two properties with the same key. */
  predicate DistinctKeys(bindings: seq<Binding>)
  {
    forall i, j :: 0 <= i < j < |bindings| ==> bindings[i].key != bindings[j].key
  }

  /** A `parameters` object, its properties in `Object.keys` order. */
  type Parameters = bindings: seq<Binding> | DistinctKeys(bindings) witness []

  /** `Object.keys(parameters)`. */
  function Keys(parameters: Parameters): seq<string>
  {
    seq(|parameters|, i requires 0 <= i < |parameters| => parameters[i].key)
  }

  /** `QueryTypes.SELECT` and `QueryTypes.RAW`. */
  datatype QueryType = Select | Raw

  /**
   * What is handed to `sequelize.query`: the SQL text and the options object.
   * An option the caller leaves out is `None` (`raw` defaults to false).
   */
  datatype Query = Query(sql: string, replacements: Option<Parameters>, queryType: Option<QueryType>, raw: bool)

  /** The metadata element of a MySQL answer. */
  datatype Metadata = Metadata(affectedRows: Option<nat>)

  /**
   * The array a query resolves to, read by position: element 0 is the result
   * rows, element 1 the metadata; `None` is an element that is `undefined`.
   */
  datatype Answer = Answer(results: Option<seq<Row>>, metadata: Option<Metadata>)

  /** The store: every query either resolves to an answer or throws. */
  type Connection = Query -> Result<Answer>
}
