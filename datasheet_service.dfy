/** The datasheet service: staging writes and reconciliation. */
module DatasheetService {
  import opened Wrappers
  import opened Store
  import opened BulkStaging
  import TransactSQL

  /** `bulkCreateDatasheets`: writes the batch into the staging table `DatasheetTemp`. */
  function BulkCreateDatasheets(utils: BulkUtils, datasheets: seq<Row>, options: BulkOptions): (r: Result<seq<Row>>)
    ensures UseChunks(options) && |datasheets| > ChunkSize(options) ==>
      r == utils.bulkCreateInChunks(DatasheetTemp, datasheets, ChunkSize(options))
    ensures !(UseChunks(options) && |datasheets| > ChunkSize(options)) ==>
      r == utils.bulkCreate(DatasheetTemp, datasheets, CreateOptions(true, None))
  {
    PerformReturnsHelperResult(utils, DatasheetTemp, datasheets, options);
    Perform(utils, StagingWrite(DatasheetTemp, datasheets, options))
  }

  /**
   * Every helper call `bulkCreateDatasheets` makes receives the staging table
   * `DatasheetTemp` and the caller's batch: two sets of helpers that agree on
   * those calls give the same result.
   */
  lemma DatasheetsAreStaged(u1: BulkUtils, u2: BulkUtils, datasheets: seq<Row>, options: BulkOptions)
    requires forall o :: u1.bulkCreate(DatasheetTemp, datasheets, o) == u2.bulkCreate(DatasheetTemp, datasheets, o)
    requires forall n :: u1.bulkCreateInChunks(DatasheetTemp, datasheets, n) == u2.bulkCreateInChunks(DatasheetTemp, datasheets, n)
    ensures BulkCreateDatasheets(u1, datasheets, options) == BulkCreateDatasheets(u2, datasheets, options)
  {
  }

  const SyncProcedure: string := "DebbugDatasheets"

  /** The request the reconciliation sends: a parameterless SELECT call. */
  const SyncRequest: Query := Query("CALL DebbugDatasheets()", Some([]), Some(Select), true)

  /**
   * `syncDatasheetsFromTemp`: runs `CALL DebbugDatasheets()` through
   * `singleQuery`; the result is the first row or null, and a store
   * failure is rethrown.
   */
  function SyncDatasheetsFromTemp(db: Connection): (r: Result<Option<Row>>)
    ensures r.Err? <==> db(SyncRequest).Err?
    ensures db(SyncRequest).Err? ==> r.error == db(SyncRequest).error
    ensures db(SyncRequest).Ok? ==>
      var results := db(SyncRequest).value.results;
      r.value == if results.Some? && results.value != [] then Some(results.value[0]) else None
  {
    TransactSQL.NoParametersRequest(SyncProcedure);
    assert "CALL " + SyncProcedure + "()" == "CALL DebbugDatasheets()";
    assert TransactSQL.SingleQueryRequest(SyncProcedure, []) == SyncRequest;
    TransactSQL.SingleQuery(db, SyncProcedure, [])
  }
}
