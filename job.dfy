/**
 * The `sheet:dynamicAPIfield` job handler: acknowledge the job, read the
 * workbook, the job and the mapping job's plan, and, when both name fields
 * were mapped, add a `fullName` column to the first sheet and backfill it
 * page by page; complete the job, or fail it if anything raised.
 *
 * The platform is modelled as a value `Env` that answers every lookup, and
 * the handler's effect on it as the log of the remote calls it issues.
 */
module DynamicFieldJob {
  import opened Records
  import opened Mapping

  datatype Option<T> = None | Some(value: T)

  const AckInfo: string := "The job is acknowledged and is ready to execute"
  const AckProgress: nat := 10
  const CompleteMessage: string := "Table update complete. Please audit the data"
  const FailMessage: string :=
    "Executing this job encountered an error. Please see Event logs in your dashboard"

  /** A field declaration as sent to `addField`. */
  datatype FieldConfig = FieldConfig(key: string, fieldLabel: string, fieldType: string)

  const FullNameField: FieldConfig := FieldConfig(FullNameKey, "Full Name", "string")

  /** One remote call of the handler, with the arguments it carries. */
  datatype Call =
    | AckJob(jobId: string, info: string, progress: nat)
    | GetWorkbook(workbookId: string)
    | GetJob(jobId: string)
    | GetExecutionPlan(mappingJobId: string)
    | AddField(sheetId: string, field: FieldConfig)
    | GetRecords(sheetId: string, pageNumber: nat)
    | UpdateRecords(sheetId: string, records: Page)
    | CompleteJob(jobId: string, message: string, acknowledge: bool)
    | FailJob(jobId: string, message: string)

  /**
   * What the platform answers. `sheetIds` are the workbook's sheets in order;
   * `mappingJobId` is the input recorded on the custom job; `fieldMapping` is
   * the mapping job's plan; page `n` of the first sheet is `pages[n - 1]`, and
   * every page past the end is empty. `brokenCall` is the position in the
   * call log of the first remote call of the `try` block that raises, if
   * any; the calls after it are never issued, so whether they would raise
   * does not matter. `failRaises` says whether the `fail` call of the
   * `catch` block raises too.
   */
  datatype Env = Env(
    jobId: string,
    workbookId: string,
    sheetIds: seq<string>,
    mappingJobId: string,
    fieldMapping: seq<FieldMapping>,
    pages: seq<Page>,
    brokenCall: Option<nat>,
    failRaises: bool)

  /**
   * Completed: `complete` was the last call and succeeded. Failed: something
   * raised and `fail` succeeded. Unhandled: `fail` itself raised, so the
   * handler's promise rejects.
   */
  datatype Outcome = Completed | Failed | Unhandled

  /** The calls of one run of the handler, in issue order, and how it ended. */
  datatype JobRun = JobRun(log: seq<Call>, outcome: Outcome)

  /** The calls the `try` block issues when no remote call raises, and whether it raised itself. */
  datatype Attempt = Attempt(calls: seq<Call>, threw: bool)

  /** The records the platform returns for `pageNumber` of the first sheet. */
  function FetchPage(pages: seq<Page>, pageNumber: nat): Page {
    if 1 <= pageNumber <= |pages| then pages[pageNumber - 1] else []
  }

  function Completion(env: Env): Call {
    CompleteJob(env.jobId, CompleteMessage, true)
  }

  /** The four lookups that precede the guard. */
  function Preamble(env: Env): seq<Call> {
    [AckJob(env.jobId, AckInfo, AckProgress), GetWorkbook(env.workbookId),
     GetJob(env.jobId), GetExecutionPlan(env.mappingJobId)]
  }

  /**
   * The backfill loop from `pageNumber` on, when no remote call raises:
   * fetch the page; stop at an empty one; otherwise transform it, raising at
   * the first record without a name part, and write it back.
   */
  function LoopCalls(sheetId: string, pages: seq<Page>, pageNumber: nat): Attempt
    decreases |pages| + 1 - pageNumber
  {
    var records := FetchPage(pages, pageNumber);
    if records == [] then Attempt([GetRecords(sheetId, pageNumber)], false)
    else
      match TransformPage(records)
      case Err(_) => Attempt([GetRecords(sheetId, pageNumber)], true)
      case Ok(updated) =>
        var rest := LoopCalls(sheetId, pages, pageNumber + 1);
        Attempt([GetRecords(sheetId, pageNumber), UpdateRecords(sheetId, updated)] + rest.calls,
                rest.threw)
  }

  /** Adding the `fullName` column to the sheet, then backfilling it from page 1, when no remote call raises. */
  function FullNameColumn(sheetId: string, pages: seq<Page>): Attempt {
    var loop := LoopCalls(sheetId, pages, 1);
    Attempt([AddField(sheetId, FullNameField)] + loop.calls, loop.threw)
  }

  /** What follows the four lookups inside the `try` block, when no remote call raises. */
  function AfterPlan(env: Env): Attempt {
    if !AddsFullName(MappedKeys(env.fieldMapping)) then Attempt([Completion(env)], false)
    else if |env.sheetIds| == 0 then Attempt([], true)  // `sheet` is undefined: reading `sheet.id` raises
    else
      var column := FullNameColumn(env.sheetIds[0], env.pages);
      Attempt(column.calls + (if column.threw then [] else [Completion(env)]), column.threw)
  }

  /** The whole `try` block, when no remote call raises. */
  function TryBlock(env: Env): Attempt {
    var rest := AfterPlan(env);
    Attempt(Preamble(env) + rest.calls, rest.threw)
  }

  /** The `catch` block, entered after the calls `tried`: fail the job. */
  function Catch(env: Env, tried: seq<Call>): JobRun {
    JobRun(tried + [FailJob(env.jobId, FailMessage)],
           if env.failRaises then Unhandled else Failed)
  }

  /**
   * A run of the handler: the `try` block's calls up to and including the
   * one that raises, if any does; the `catch` block if anything raised.
   */
  function Run(env: Env): JobRun {
    var t := TryBlock(env);
    if env.brokenCall.Some? && env.brokenCall.value < |t.calls| then
      Catch(env, t.calls[..env.brokenCall.value + 1])
    else if t.threw then Catch(env, t.calls)
    else JobRun(t.calls, Completed)
  }

  /** The last call of `log` was the one that raised. */
  predicate Raised(env: Env, log: seq<Call>) {
    log != [] && env.brokenCall == Some(|log| - 1)
  }

  /** A remote call of the `try` block raised: the run is the `catch` block after it. */
  lemma RaisedInTry(env: Env, log: seq<Call>)
    requires log <= TryBlock(env).calls
    requires Raised(env, log)
    ensures Run(env) == Catch(env, log)
  {
    assert TryBlock(env).calls[..|log|] == log;
  }

  /** The `try` block ran to its end with no remote call raising. */
  lemma TryBlockEnded(env: Env, log: seq<Call>)
    requires log == TryBlock(env).calls
    requires env.brokenCall.Some? ==> env.brokenCall.value >= |log|
    ensures Run(env) == if TryBlock(env).threw then Catch(env, log) else JobRun(log, Completed)
  {
  }

  /** What the backfill loop issues after fetching `pageNumber`, when no remote call raises. */
  function AfterFetch(sheetId: string, pages: seq<Page>, pageNumber: nat): Attempt {
    var records := FetchPage(pages, pageNumber);
    if records == [] then Attempt([], false)
    else if TransformPage(records).Err? then Attempt([], true)
    else
      var rest := LoopCalls(sheetId, pages, pageNumber + 1);
      Attempt([UpdateRecords(sheetId, TransformPage(records).value)] + rest.calls, rest.threw)
  }

  /** Appending one call to the log moves it from the calls still to come. */
  lemma Shift<T>(a: seq<T>, x: T, b: seq<T>)
    ensures a + ([x] + b) == (a + [x]) + b
    ensures a + [x] <= a + ([x] + b)
  {
  }

  /** One turn of the backfill loop: a fetch, then what `AfterFetch` says. */
  lemma LoopStep(sheetId: string, pages: seq<Page>, pageNumber: nat)
    ensures LoopCalls(sheetId, pages, pageNumber).calls
            == [GetRecords(sheetId, pageNumber)] + AfterFetch(sheetId, pages, pageNumber).calls
    ensures LoopCalls(sheetId, pages, pageNumber).threw == AfterFetch(sheetId, pages, pageNumber).threw
  {
  }

  /**
   * The backfill loop: fetch pages 1, 2, ... of the sheet until an empty one,
   * writing each transformed page back. Stops early when a remote call raises
   * (`raised`) or a record lacks a name part (`threw`).
   */
  method BackfillFullName(env: Env, sheetId: string, logBefore: seq<Call>)
      returns (log: seq<Call>, raised: bool, threw: bool)
    requires env.brokenCall.Some? ==> env.brokenCall.value >= |logBefore|
    ensures raised ==> Raised(env, log) && log <= logBefore + LoopCalls(sheetId, env.pages, 1).calls
    ensures !raised ==> log == logBefore + LoopCalls(sheetId, env.pages, 1).calls
    ensures !raised ==> threw == LoopCalls(sheetId, env.pages, 1).threw
    ensures !raised ==> env.brokenCall.Some? ==> env.brokenCall.value >= |log|
  {
    ghost var all := logBefore + LoopCalls(sheetId, env.pages, 1).calls;
    ghost var allThrew := LoopCalls(sheetId, env.pages, 1).threw;
    log := logBefore;
    var pageNumber := 1;
    while true
      invariant 1 <= pageNumber <= |env.pages| + 1
      invariant all == log + LoopCalls(sheetId, env.pages, pageNumber).calls
      invariant allThrew == LoopCalls(sheetId, env.pages, pageNumber).threw
      invariant env.brokenCall.Some? ==> env.brokenCall.value >= |log|
      decreases |env.pages| + 1 - pageNumber
    {
      LoopStep(sheetId, env.pages, pageNumber);
      ghost var after := AfterFetch(sheetId, env.pages, pageNumber);
      var requested := pageNumber;
      pageNumber := pageNumber + 1;
      Shift(log, GetRecords(sheetId, requested), after.calls);
      log := log + [GetRecords(sheetId, requested)];
      if Raised(env, log) { return log, true, false; }
      var records := FetchPage(env.pages, requested);
      if records == [] { return log, false, false; }
      var updated := TransformPage(records);
      if updated.Err? { return log, false, true; }
      Shift(log, UpdateRecords(sheetId, updated.value), LoopCalls(sheetId, env.pages, pageNumber).calls);
      log := log + [UpdateRecords(sheetId, updated.value)];
      if Raised(env, log) { return log, true, false; }
    }
  }

  /**
   * Acknowledges the job, then reads the workbook, the custom job and the
   * mapping job's plan; stops early when one of these calls raises.
   */
  method Lookups(env: Env) returns (log: seq<Call>, raised: bool)
    ensures raised ==> Raised(env, log) && log <= Preamble(env)
    ensures !raised ==> log == Preamble(env)
    ensures !raised ==> env.brokenCall.Some? ==> env.brokenCall.value >= |log|
  {
    log := [AckJob(env.jobId, AckInfo, AckProgress)];
    if Raised(env, log) { return log, true; }
    log := log + [GetWorkbook(env.workbookId)];
    if Raised(env, log) { return log, true; }
    log := log + [GetJob(env.jobId)];
    if Raised(env, log) { return log, true; }
    log := log + [GetExecutionPlan(env.mappingJobId)];
    raised := Raised(env, log);
  }

  /**
   * The `try` block, step by step: each remote call appends to the log and
   * may raise (`raised`); the block may also raise by itself (`threw`).
   */
  method TryBlockSteps(env: Env) returns (log: seq<Call>, raised: bool, threw: bool)
    ensures raised ==> Raised(env, log) && log <= TryBlock(env).calls
    ensures !raised ==> log == TryBlock(env).calls && threw == TryBlock(env).threw
    ensures !raised ==> env.brokenCall.Some? ==> env.brokenCall.value >= |log|
  {
    ghost var t := TryBlock(env);
    raised, threw := false, false;
    log, raised := Lookups(env);
    if raised {
      assert Preamble(env) <= t.calls;
      return;
    }
    assert t.calls == log + AfterPlan(env).calls;
    var sheets := env.sheetIds;

    var mappedFields := CollectMappedFields(env.fieldMapping);
    if FirstNameKey in mappedFields && LastNameKey in mappedFields {
      if |sheets| == 0 { return log, false, true; }
      var sheetId := sheets[0];
      ghost var loop := LoopCalls(sheetId, env.pages, 1);
      ghost var tail := if loop.threw then [] else [Completion(env)];
      var addField := AddField(sheetId, FullNameField);
      assert t.calls == log + ([addField] + (loop.calls + tail));
      Shift(log, addField, loop.calls + tail);
      log := log + [addField];
      if Raised(env, log) { return log, true, false; }
      assert t.calls == log + loop.calls + tail;
      log, raised, threw := BackfillFullName(env, sheetId, log);
      if raised || threw { return; }
    }

    log := log + [Completion(env)];
    if Raised(env, log) { return log, true, false; }
  }

  /** The handler: the `try` block, then the `catch` block if anything raised. */
  method HandleDynamicFieldJob(env: Env) returns (run: JobRun)
    ensures run == Run(env)
  {
    var log, raised, threw := TryBlockSteps(env);
    if raised {
      RaisedInTry(env, log);
      run := Catch(env, log);
    } else if threw {
      TryBlockEnded(env, log);
      run := Catch(env, log);
    } else {
      TryBlockEnded(env, log);
      run := JobRun(log, Completed);
    }
  }
}
