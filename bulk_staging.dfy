/**
 * The bulk-write rule shared by the product and datasheet services: a batch
 * goes to the chunked helper exactly when chunking is requested and the batch
 * is larger than the chunk size; otherwise it is one validated direct insert.
 * The helpers themselves (`bulkCreate`, `bulkCreateInChunks`) are parameters.
 */
module BulkStaging {
  import opened Wrappers
  import opened Store

  /** The tables the services write to. */
  datatype Model = Product | ProductTemp | Datasheet | DatasheetTemp

  /** The `options` argument; a property left out is `None`. */
  datatype BulkOptions = BulkOptions(useChunks: Option<bool>, chunkSize: Option<int>)

  /** `options = {}`. */
  const NoOptions: BulkOptions := BulkOptions(None, None)

  const DefaultChunkSize: int := 500

  /** `useChunks`, defaulting to false. */
  function UseChunks(options: BulkOptions): bool
  {
    match options.useChunks
    case None => false
    case Some(b) => b
  }

  /** `chunkSize`, defaulting to 500. */
  function ChunkSize(options: BulkOptions): int
  {
    match options.chunkSize
    case None => DefaultChunkSize
    case Some(n) => n
  }

  /** The options object handed to `bulkCreate`. */
  datatype CreateOptions = CreateOptions(validate: bool, updateOnDuplicate: Option<seq<string>>)

  /** The helper call a service makes. */
  datatype BulkWrite =
    | Direct(model: Model, records: seq<Row>, options: CreateOptions)
    | InChunks(model: Model, records: seq<Row>, chunkSize: int)

  /** The bulk helpers, whose bodies are not part of this model. */
  datatype BulkUtils = BulkUtils(
    bulkCreate: (Model, seq<Row>, CreateOptions) -> Result<seq<Row>>,
    bulkCreateInChunks: (Model, seq<Row>, int) -> Result<seq<Row>>)

  /** Makes the helper call and returns (or rethrows) what it gives. */
  function Perform(utils: BulkUtils, write: BulkWrite): Result<seq<Row>>
  {
    match write
    case Direct(model, records, options) => utils.bulkCreate(model, records, options)
    case InChunks(model, records, chunkSize) => utils.bulkCreateInChunks(model, records, chunkSize)
  }

  /** The dispatch rule for writing `records` into `model`. */
  function StagingWrite(model: Model, records: seq<Row>, options: BulkOptions): (w: BulkWrite)
    ensures w.model == model && w.records == records
    ensures w.InChunks? <==> UseChunks(options) && |records| > ChunkSize(options)
    ensures w.InChunks? ==> w.chunkSize == ChunkSize(options)
    ensures w.Direct? ==> w.options == CreateOptions(true, None)
  {
    if UseChunks(options) && |records| > ChunkSize(options) then
      InChunks(model, records, ChunkSize(options))
    else
      Direct(model, records, CreateOptions(true, None))
  }

  /** With no options the direct, validated insert is always taken. */
  lemma DefaultsAreDirect(model: Model, records: seq<Row>)
    ensures StagingWrite(model, records, NoOptions) == Direct(model, records, CreateOptions(true, None))
  {
  }

  /** A batch no larger than the chunk size is inserted directly, whatever `useChunks` says. */
  lemma SmallBatchIsDirect(model: Model, records: seq<Row>, options: BulkOptions)
    requires |records| <= ChunkSize(options)
    ensures StagingWrite(model, records, options) == Direct(model, records, CreateOptions(true, None))
  {
  }

  /** An empty batch is inserted directly unless the chunk size is negative. */
  lemma EmptyBatchIsDirect(model: Model, options: BulkOptions)
    requires ChunkSize(options) >= 0
    ensures StagingWrite(model, [], options).Direct?
  {
  }

  /** Nothing guards the chunk size: a negative one sends even an empty batch to the chunked helper. */
  lemma NegativeChunkSizeChunksEmptyBatch(model: Model)
    ensures StagingWrite(model, [], BulkOptions(Some(true), Some(-1))) == InChunks(model, [], -1)
  {
  }

  /** Whatever path is taken, the helper's result is returned unchanged. */
  lemma PerformReturnsHelperResult(utils: BulkUtils, model: Model, records: seq<Row>, options: BulkOptions)
    ensures UseChunks(options) && |records| > ChunkSize(options) ==>
      Perform(utils, StagingWrite(model, records, options)) == utils.bulkCreateInChunks(model, records, ChunkSize(options))
    ensures !(UseChunks(options) && |records| > ChunkSize(options)) ==>
      Perform(utils, StagingWrite(model, records, options)) == utils.bulkCreate(model, records, CreateOptions(true, None))
  {
  }
}
