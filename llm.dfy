/**
 * The two entry points of the intent-extraction module. The retrying model
 * call and the schema validator are not part of this model: they are passed
 * in as functions that either produce a value or throw.
 */
module Llm {
  import opened Wrappers

  /** One reported violation: the field it concerns and a readable message. */
  datatype FieldError = FieldError(field: string, message: string)

  /**
   * The non-throwing validation report `{ valid, errors, data }`;
   * `errors` and `data` may be null.
   */
  datatype SafeResult<Intent> = SafeResult(valid: bool, errors: Option<seq<FieldError>>, data: Option<Intent>)

  /**
   * The report's mutual-exclusion invariant: a valid report carries data and
   * no errors (an empty list or null); an invalid one carries errors and no data.
   */
  predicate WellFormed<Intent>(report: SafeResult<Intent>)
  {
    && (report.valid ==> report.data.Some? && (report.errors.None? || report.errors.value == []))
    && (!report.valid ==> report.data.None? && report.errors.Some? && report.errors.value != [])
  }

  /** The record the `catch` block of `extractIntentSafe` builds. */
  function SystemFailure<Intent>(error: Error): SafeResult<Intent>
  {
    SafeResult(false, Some([FieldError("system", error.message)]), None)
  }

  /**
   * `extractIntent`: the extraction's output goes to the throwing validator;
   * a failure of either step propagates unchanged.
   */
  function ExtractIntent<Raw, Intent>(
    question: string,
    extractWithRetry: string -> Result<Raw>,
    validateOrThrow: Raw -> Result<Intent>): (r: Result<Intent>)
    ensures extractWithRetry(question).Err? ==> r == Err(extractWithRetry(question).error)
    ensures extractWithRetry(question).Ok? ==> r == validateOrThrow(extractWithRetry(question).value)
  {
    match extractWithRetry(question)
    case Err(e) => Err(e)
    case Ok(raw) => validateOrThrow(raw)
  }

  /**
   * `extractIntentSafe`: never throws. A failure of the extraction or of the
   * validator becomes the system-failure record carrying that error's message;
   * otherwise the validator's report is returned unchanged.
   */
  function ExtractIntentSafe<Raw, Intent>(
    question: string,
    extractWithRetry: string -> Result<Raw>,
    validateIntent: Raw -> Result<SafeResult<Intent>>): (r: SafeResult<Intent>)
    ensures extractWithRetry(question).Err? ==>
      && !r.valid && r.data.None?
      && r.errors == Some([FieldError("system", extractWithRetry(question).error.message)])
    ensures extractWithRetry(question).Ok? && validateIntent(extractWithRetry(question).value).Err? ==>
      && !r.valid && r.data.None?
      && r.errors == Some([FieldError("system", validateIntent(extractWithRetry(question).value).error.message)])
    ensures extractWithRetry(question).Ok? && validateIntent(extractWithRetry(question).value).Ok? ==>
      r == validateIntent(extractWithRetry(question).value).value
  {
    match extractWithRetry(question)
    case Err(e) => SystemFailure(e)
    case Ok(raw) =>
      match validateIntent(raw)
      case Err(e) => SystemFailure(e)
      case Ok(report) => report
  }

  /** When the extraction fails the validator is never consulted. */
  lemma ExtractionFailureSkipsValidation<Raw, Intent>(
    question: string,
    extractWithRetry: string -> Result<Raw>,
    validate1: Raw -> Result<Intent>,
    validate2: Raw -> Result<Intent>,
    report1: Raw -> Result<SafeResult<Intent>>,
    report2: Raw -> Result<SafeResult<Intent>>)
    requires extractWithRetry(question).Err?
    ensures ExtractIntent(question, extractWithRetry, validate1) == ExtractIntent(question, extractWithRetry, validate2)
    ensures ExtractIntentSafe(question, extractWithRetry, report1) == ExtractIntentSafe(question, extractWithRetry, report2)
  {
  }

  /** Both entry points use the extraction only at the caller's own question. */
  lemma QuestionPassedUnchanged<Raw, Intent>(
    question: string,
    extract1: string -> Result<Raw>,
    extract2: string -> Result<Raw>,
    validateOrThrow: Raw -> Result<Intent>,
    validateIntent: Raw -> Result<SafeResult<Intent>>)
    requires extract1(question) == extract2(question)
    ensures ExtractIntent(question, extract1, validateOrThrow) == ExtractIntent(question, extract2, validateOrThrow)
    ensures ExtractIntentSafe(question, extract1, validateIntent) == ExtractIntentSafe(question, extract2, validateIntent)
  {
  }

  /** The system-failure record satisfies the report invariant. */
  lemma SystemFailureIsWellFormed<Intent>(error: Error)
    ensures WellFormed<Intent>(SystemFailure(error))
  {
  }

  /**
   * `extractIntentSafe` keeps the report invariant: if the validator's
   * reports satisfy it, so does every result.
   */
  lemma SafeIsWellFormed<Raw, Intent>(
    question: string,
    extractWithRetry: string -> Result<Raw>,
    validateIntent: Raw -> Result<SafeResult<Intent>>)
    requires forall raw :: validateIntent(raw).Ok? ==> WellFormed(validateIntent(raw).value)
    ensures WellFormed(ExtractIntentSafe(question, extractWithRetry, validateIntent))
  {
    match extractWithRetry(question)
    case Err(e) =>
      SystemFailureIsWellFormed<Intent>(e);
    case Ok(raw) =>
      match validateIntent(raw)
      case Err(e) =>
        SystemFailureIsWellFormed<Intent>(e);
      case Ok(report) =>
        assert WellFormed(report);
  }

  /** The two validators agree on `raw`: the report is valid exactly when validation does not throw. */
  ghost predicate Agree<Raw, Intent>(
    validateOrThrow: Raw -> Result<Intent>,
    validateIntent: Raw -> Result<SafeResult<Intent>>,
    raw: Raw)
  {
    && validateIntent(raw).Ok?
    && validateIntent(raw).value.valid == validateOrThrow(raw).Ok?
    && (validateOrThrow(raw).Ok? ==> validateIntent(raw).value.data == Some(validateOrThrow(raw).value))
  }

  /**
   * With agreeing validators the two entry points agree: the safe report is
   * valid exactly when the strict call succeeds, and then carries its intent;
   * when the extraction fails, the safe report carries the strict call's message.
   */
  lemma SafeAgreesWithStrict<Raw, Intent>(
    question: string,
    extractWithRetry: string -> Result<Raw>,
    validateOrThrow: Raw -> Result<Intent>,
    validateIntent: Raw -> Result<SafeResult<Intent>>)
    requires extractWithRetry(question).Ok? ==> Agree(validateOrThrow, validateIntent, extractWithRetry(question).value)
    ensures ExtractIntentSafe(question, extractWithRetry, validateIntent).valid
      <==> ExtractIntent(question, extractWithRetry, validateOrThrow).Ok?
    ensures ExtractIntent(question, extractWithRetry, validateOrThrow).Ok? ==>
      ExtractIntentSafe(question, extractWithRetry, validateIntent).data
        == Some(ExtractIntent(question, extractWithRetry, validateOrThrow).value)
    ensures extractWithRetry(question).Err? ==>
      ExtractIntentSafe(question, extractWithRetry, validateIntent).errors
        == Some([FieldError("system", ExtractIntent(question, extractWithRetry, validateOrThrow).error.message)])
  {
  }
}
