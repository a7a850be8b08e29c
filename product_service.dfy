/** The product service: staging writes, the canonical upsert, and reconciliation. */
module ProductService {
  import opened Wrappers
  import opened Store
  import opened BulkStaging
  import TransactSQL

  /** `bulkCreateProducts`: writes the batch into the staging table `ProductTemp`. */
  function BulkCreateProducts(utils: BulkUtils, productos: seq<Row>, options: BulkOptions): (r: Result<seq<Row>>)
    ensures UseChunks(options) && |productos| > ChunkSize(options) ==>
      r == utils.bulkCreateInChunks(ProductTemp, productos, ChunkSize(options))
    ensures !(UseChunks(options) && |productos| > ChunkSize(options)) ==>
      r == utils.bulkCreate(ProductTemp, productos, CreateOptions(true, None))
  {
    PerformReturnsHelperResult(utils, ProductTemp, productos, options);
    Perform(utils, StagingWrite(ProductTemp, productos, options))
  }

  /**
   * Every helper call `bulkCreateProducts` makes receives the staging table
   * `ProductTemp` and the caller's batch: two sets of helpers that agree on
   * those calls give the same result.
   */
  lemma ProductsAreStaged(u1: BulkUtils, u2: BulkUtils, productos: seq<Row>, options: BulkOptions)
    requires forall o :: u1.bulkCreate(ProductTemp, productos, o) == u2.bulkCreate(ProductTemp, productos, o)
    requires forall n :: u1.bulkCreateInChunks(ProductTemp, productos, n) == u2.bulkCreateInChunks(ProductTemp, productos, n)
    ensures BulkCreateProducts(u1, productos, options) == BulkCreateProducts(u2, productos, options)
  {
  }

  /** The helper call `bulkUpsertProducts` makes. */
  function UpsertWrite(productos: seq<Row>, updateFields: seq<string>): BulkWrite
  {
    Direct(Product, productos, CreateOptions(true, Some(updateFields)))
  }

  /**
   * `bulkUpsertProducts`: one validated insert into the canonical `Product`
   * table that updates `updateFields` on duplicate keys; never chunked.
   */
  function BulkUpsertProducts(utils: BulkUtils, productos: seq<Row>, updateFields: seq<string>): (r: Result<seq<Row>>)
    ensures r == utils.bulkCreate(Product, productos, CreateOptions(true, Some(updateFields)))
  {
    Perform(utils, UpsertWrite(productos, updateFields))
  }

  /**
   * `bulkUpsertProducts` makes one helper call, the direct insert into the
   * canonical `Product` table with the caller's batch: it never chunks, never
   * touches staging, and two sets of helpers that agree on that call give the
   * same result.
   */
  lemma UpsertTargetsCanonical(u1: BulkUtils, u2: BulkUtils, productos: seq<Row>, updateFields: seq<string>)
    requires forall o :: u1.bulkCreate(Product, productos, o) == u2.bulkCreate(Product, productos, o)
    ensures BulkUpsertProducts(u1, productos, updateFields) == BulkUpsertProducts(u2, productos, updateFields)
  {
  }

  const SyncProcedure: string := "DebbugProductos"

  /** The request the reconciliation sends: a parameterless SELECT call. */
  const SyncRequest: Query := Query("CALL DebbugProductos()", Some([]), Some(Select), true)

  /**
   * `syncProductosFromTemp`: runs `CALL DebbugProductos()` through
   * `singleQuery`; the result is the first row or null, and a store
   * failure is rethrown.
   */
  function SyncProductosFromTemp(db: Connection): (r: Result<Option<Row>>)
    ensures r.Err? <==> db(SyncRequest).Err?
    ensures db(SyncRequest).Err? ==> r.error == db(SyncRequest).error
    ensures db(SyncRequest).Ok? ==>
      var results := db(SyncRequest).value.results;
      r.value == if results.Some? && results.value != [] then Some(results.value[0]) else None
  {
    TransactSQL.NoParametersRequest(SyncProcedure);
    assert "CALL " + SyncProcedure + "()" == "CALL DebbugProductos()";
    assert TransactSQL.SingleQueryRequest(SyncProcedure, []) == SyncRequest;
    TransactSQL.SingleQuery(db, SyncProcedure, [])
  }
}
