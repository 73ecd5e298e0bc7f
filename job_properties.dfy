/**
 * What a run of the `sheet:dynamicAPIfield` handler does, read off its call
 * log: which pages it fetches, what it writes back, when it adds the column
 * and how the job ends.
 */
module JobProperties {
  import opened Records
  import opened Mapping
  import opened DynamicFieldJob

  /** The page number of `c` if it is a record fetch. */
  function FetchOf(c: Call): seq<nat> {
    if c.GetRecords? then [c.pageNumber] else []
  }

  /** The records sent by `c` if it is a record update. */
  function WriteOf(c: Call): seq<Page> {
    if c.UpdateRecords? then [c.records] else []
  }

  /** The page numbers of the record fetches in `log`, in issue order. */
  function Fetched(log: seq<Call>): seq<nat> {
    if log == [] then [] else FetchOf(log[0]) + Fetched(log[1..])
  }

  /** The records sent by the record updates in `log`, in issue order. */
  function Written(log: seq<Call>): seq<Page> {
    if log == [] then [] else WriteOf(log[0]) + Written(log[1..])
  }

  lemma {:induction false} FetchedAppend(a: seq<Call>, b: seq<Call>)
    ensures Fetched(a + b) == Fetched(a) + Fetched(b)
  {
    if a == [] {
      assert a + b == b;
    } else {
      calc {
        Fetched(a + b);
      == { assert (a + b)[0] == a[0]; assert (a + b)[1..] == a[1..] + b; }
        FetchOf(a[0]) + Fetched(a[1..] + b);
      == { FetchedAppend(a[1..], b); }
        FetchOf(a[0]) + (Fetched(a[1..]) + Fetched(b));
      ==
        (FetchOf(a[0]) + Fetched(a[1..])) + Fetched(b);
      }
    }
  }

  lemma {:induction false} WrittenAppend(a: seq<Call>, b: seq<Call>)
    ensures Written(a + b) == Written(a) + Written(b)
  {
    if a == [] {
      assert a + b == b;
    } else {
      calc {
        Written(a + b);
      == { assert (a + b)[0] == a[0]; assert (a + b)[1..] == a[1..] + b; }
        WriteOf(a[0]) + Written(a[1..] + b);
      == { WrittenAppend(a[1..], b); }
        WriteOf(a[0]) + (Written(a[1..]) + Written(b));
      ==
        (WriteOf(a[0]) + Written(a[1..])) + Written(b);
      }
    }
  }

  /** The loop stops after fetching `pageNumber`: the page is empty or a record on it lacks a name part. */
  predicate StopsAt(pages: seq<Page>, pageNumber: nat) {
    FetchPage(pages, pageNumber) == [] || TransformPage(FetchPage(pages, pageNumber)).Err?
  }

  /** The first page number from `pageNumber` on at which the loop stops. */
  function FirstStop(pages: seq<Page>, pageNumber: nat): (stop: nat)
    decreases |pages| + 1 - pageNumber
    ensures pageNumber <= stop
    ensures StopsAt(pages, stop)
    ensures forall p :: pageNumber <= p < stop ==> !StopsAt(pages, p)
  {
    if StopsAt(pages, pageNumber) then pageNumber else FirstStop(pages, pageNumber + 1)
  }

  /** A call of the backfill loop, addressed to the sheet `sheetId`. */
  predicate LoopCallOn(c: Call, sheetId: string) {
    (c.GetRecords? || c.UpdateRecords?) && c.sheetId == sheetId
  }

  lemma FetchedCons(c: Call, rest: seq<Call>)
    ensures Fetched([c] + rest) == FetchOf(c) + Fetched(rest)
    ensures Written([c] + rest) == WriteOf(c) + Written(rest)
  {
    assert ([c] + rest)[0] == c;
    assert ([c] + rest)[1..] == rest;
  }

  /** Unfolds one turn of the loop, on a page that it fetched and wrote back. */
  lemma LoopTurn(sheetId: string, pages: seq<Page>, pageNumber: nat)
    requires !StopsAt(pages, pageNumber)
    ensures var loop := LoopCalls(sheetId, pages, pageNumber);
            var rest := LoopCalls(sheetId, pages, pageNumber + 1);
            var updated := TransformPage(FetchPage(pages, pageNumber)).value;
            && loop.calls == [GetRecords(sheetId, pageNumber)] + ([UpdateRecords(sheetId, updated)] + rest.calls)
            && loop.threw == rest.threw
            && Fetched(loop.calls) == [pageNumber] + Fetched(rest.calls)
            && Written(loop.calls) == [updated] + Written(rest.calls)
  {
    var rest := LoopCalls(sheetId, pages, pageNumber + 1);
    var fetch := GetRecords(sheetId, pageNumber);
    var update := UpdateRecords(sheetId, TransformPage(FetchPage(pages, pageNumber)).value);
    LoopStep(sheetId, pages, pageNumber);
    assert AfterFetch(sheetId, pages, pageNumber).calls == [update] + rest.calls;
    FetchedCons(fetch, [update] + rest.calls);
    FetchedCons(update, rest.calls);
  }

  /** The turn of the loop on the page where it stops: one fetch and nothing else. */
  lemma LoopLastTurn(sheetId: string, pages: seq<Page>, pageNumber: nat)
    requires StopsAt(pages, pageNumber)
    ensures var loop := LoopCalls(sheetId, pages, pageNumber);
            && loop.calls == [GetRecords(sheetId, pageNumber)]
            && (loop.threw <==> FetchPage(pages, pageNumber) != [])
            && Fetched(loop.calls) == [pageNumber]
            && Written(loop.calls) == []
  {
    LoopStep(sheetId, pages, pageNumber);
    FetchedCons(GetRecords(sheetId, pageNumber), []);
  }

  /**
   * From `pageNumber` on, with no remote call raising, the loop fetches every
   * page up to the one where it stops, each once and in increasing order.
   */
  lemma {:induction false} LoopFetches(sheetId: string, pages: seq<Page>, pageNumber: nat)
    decreases |pages| + 1 - pageNumber
    ensures var fetched := Fetched(LoopCalls(sheetId, pages, pageNumber).calls);
            && |fetched| == FirstStop(pages, pageNumber) - pageNumber + 1
            && forall i :: 0 <= i < |fetched| ==> fetched[i] == pageNumber + i
  {
    if StopsAt(pages, pageNumber) {
      LoopLastTurn(sheetId, pages, pageNumber);
    } else {
      LoopTurn(sheetId, pages, pageNumber);
      LoopFetches(sheetId, pages, pageNumber + 1);
    }
  }

  lemma WritesShift(pages: seq<Page>, n: nat, written: seq<Page>, later: seq<Page>)
    requires !StopsAt(pages, n)
    requires written == [TransformPage(FetchPage(pages, n)).value] + later
    requires forall i :: 0 <= i < |later| ==> TransformPage(FetchPage(pages, n + 1 + i)) == Ok(later[i])
    ensures forall i :: 0 <= i < |written| ==> TransformPage(FetchPage(pages, n + i)) == Ok(written[i])
  {
    forall i | 1 <= i < |written| ensures TransformPage(FetchPage(pages, n + i)) == Ok(written[i]) {
      assert written[i] == later[i - 1];
      assert n + 1 + (i - 1) == n + i;
    }
  }

  /**
   * From `pageNumber` on, with no remote call raising, the loop writes back
   * the transformed records of every page before the one where it stops, in
   * page order, and nothing else.
   */
  lemma {:induction false} LoopWrites(sheetId: string, pages: seq<Page>, pageNumber: nat)
    decreases |pages| + 1 - pageNumber
    ensures var written := Written(LoopCalls(sheetId, pages, pageNumber).calls);
            && |written| == FirstStop(pages, pageNumber) - pageNumber
            && forall i :: 0 <= i < |written| ==>
                 TransformPage(FetchPage(pages, pageNumber + i)) == Ok(written[i])
  {
    if StopsAt(pages, pageNumber) {
      LoopLastTurn(sheetId, pages, pageNumber);
    } else {
      LoopTurn(sheetId, pages, pageNumber);
      LoopWrites(sheetId, pages, pageNumber + 1);
      var written := Written(LoopCalls(sheetId, pages, pageNumber).calls);
      var later := Written(LoopCalls(sheetId, pages, pageNumber + 1).calls);
      WritesShift(pages, pageNumber, written, later);
    }
  }

  /**
   * The loop raises by itself exactly when it stopped on a non-empty page,
   * and every call it issues is a fetch or an update of the one sheet.
   */
  lemma {:induction false} LoopEnds(sheetId: string, pages: seq<Page>, pageNumber: nat)
    decreases |pages| + 1 - pageNumber
    ensures var loop := LoopCalls(sheetId, pages, pageNumber);
            && (loop.threw <==> FetchPage(pages, FirstStop(pages, pageNumber)) != [])
            && forall i :: 0 <= i < |loop.calls| ==> LoopCallOn(loop.calls[i], sheetId)
  {
    if StopsAt(pages, pageNumber) {
      LoopLastTurn(sheetId, pages, pageNumber);
    } else {
      LoopTurn(sheetId, pages, pageNumber);
      LoopEnds(sheetId, pages, pageNumber + 1);
    }
  }

  /** The last call of the loop is the fetch of the page where it stops. */
  lemma {:induction false} LoopLastFetch(sheetId: string, pages: seq<Page>, pageNumber: nat)
    decreases |pages| + 1 - pageNumber
    ensures var loop := LoopCalls(sheetId, pages, pageNumber);
            loop.calls != [] && loop.calls[|loop.calls| - 1] == GetRecords(sheetId, FirstStop(pages, pageNumber))
  {
    if StopsAt(pages, pageNumber) {
      LoopLastTurn(sheetId, pages, pageNumber);
    } else {
      LoopTurn(sheetId, pages, pageNumber);
      LoopLastFetch(sheetId, pages, pageNumber + 1);
    }
  }

  /** The calls of the `try` block that were actually issued: up to the one that raised, if any. */
  function Tried(env: Env): seq<Call> {
    var t := TryBlock(env);
    if env.brokenCall.Some? && env.brokenCall.value < |t.calls| then t.calls[..env.brokenCall.value + 1]
    else t.calls
  }

  /**
   * Every run is the issued part of the `try` block, followed by one `fail`
   * call unless the job completed. It completes only when nothing raised,
   * its last call is then `complete`, and it is unhandled exactly when the
   * `fail` call itself raised.
   */
  lemma RunEnds(env: Env)
    ensures Tried(env) <= TryBlock(env).calls
    ensures Run(env).outcome == Completed ==> Run(env).log == Tried(env) == TryBlock(env).calls
    ensures Run(env).outcome == Completed ==>
      && !TryBlock(env).threw
      && Run(env).log[|Run(env).log| - 1] == CompleteJob(env.jobId, CompleteMessage, true)
    ensures Run(env).outcome != Completed ==>
      Run(env).log == Tried(env) + [FailJob(env.jobId, FailMessage)]
    ensures Run(env).outcome == Unhandled <==> Run(env).outcome != Completed && env.failRaises
  {
    var t := TryBlock(env);
    TryEndsWithComplete(env);
  }

  /**
   * The `try` block starts with the four lookups, and unless it raises by
   * itself it ends with `complete` after them.
   */
  lemma TryEndsWithComplete(env: Env)
    ensures Preamble(env) <= TryBlock(env).calls
    ensures !TryBlock(env).threw ==>
      |TryBlock(env).calls| > 4
      && TryBlock(env).calls[|TryBlock(env).calls| - 1] == CompleteJob(env.jobId, CompleteMessage, true)
  {
  }

  /**
   * Unless both `first_name` and `last_name` were mapped, the run adds no
   * column and fetches or writes no records; with no remote call raising it
   * is the four lookups followed by `complete`, and the job completes.
   */
  lemma GuardOffSkipsBackfill(env: Env)
    requires !AddsFullName(MappedKeys(env.fieldMapping))
    ensures forall i :: 0 <= i < |Run(env).log| ==>
      !Run(env).log[i].AddField? && !Run(env).log[i].GetRecords? && !Run(env).log[i].UpdateRecords?
    ensures env.brokenCall == None ==>
      Run(env) == JobRun(Preamble(env) + [CompleteJob(env.jobId, CompleteMessage, true)], Completed)
  {
    var t := TryBlock(env);
    RunEnds(env);
    assert forall i :: 0 <= i < |t.calls| ==>
      !t.calls[i].AddField? && !t.calls[i].GetRecords? && !t.calls[i].UpdateRecords?;
    var tried := Tried(env);
    assert forall i :: 0 <= i < |tried| ==> tried[i] == t.calls[i];
  }

  /** No call of `log` is a record fetch or a record update. */
  predicate NoRecordCalls(log: seq<Call>) {
    forall i :: 0 <= i < |log| ==> !log[i].GetRecords? && !log[i].UpdateRecords?
  }

  lemma {:induction false} QuietLog(log: seq<Call>)
    requires NoRecordCalls(log)
    ensures Fetched(log) == [] && Written(log) == []
  {
    if log != [] {
      assert NoRecordCalls(log[1..]) by {
        forall i | 0 <= i < |log[1..]| ensures !log[1..][i].GetRecords? && !log[1..][i].UpdateRecords? {
          assert log[1..][i] == log[i + 1];
        }
      }
      QuietLog(log[1..]);
    }
  }

  /** A prefix of a log fetches and writes a prefix of what the log does. */
  lemma PrefixLog(a: seq<Call>, b: seq<Call>)
    requires a <= b
    ensures Fetched(a) <= Fetched(b) && Written(a) <= Written(b)
  {
    assert b == a + b[|a|..];
    FetchedAppend(a, b[|a|..]);
    WrittenAppend(a, b[|a|..]);
  }

  /** The column and backfill part of the `try` block, when both name fields were mapped and there is a sheet. */
  lemma TryShape(env: Env)
    requires AddsFullName(MappedKeys(env.fieldMapping)) && |env.sheetIds| > 0
    ensures var loop := LoopCalls(env.sheetIds[0], env.pages, 1);
            var head := Preamble(env) + [AddField(env.sheetIds[0], FullNameField)];
            var tail := if loop.threw then [] else [Completion(env)];
            && TryBlock(env).calls == (head + loop.calls) + tail
            && TryBlock(env).threw == loop.threw
            && Fetched(TryBlock(env).calls) == Fetched(loop.calls)
            && Written(TryBlock(env).calls) == Written(loop.calls)
  {
    var loop := LoopCalls(env.sheetIds[0], env.pages, 1);
    var head := Preamble(env) + [AddField(env.sheetIds[0], FullNameField)];
    var tail := if loop.threw then [] else [Completion(env)];
    assert TryBlock(env).calls == (head + loop.calls) + tail;
    QuietLog(head);
    QuietLog(tail);
    FetchedAppend(head + loop.calls, tail);
    FetchedAppend(head, loop.calls);
    WrittenAppend(head + loop.calls, tail);
    WrittenAppend(head, loop.calls);
  }

  /** Without the column, the `try` block fetches and writes nothing. */
  lemma TryQuiet(env: Env)
    requires !AddsFullName(MappedKeys(env.fieldMapping)) || |env.sheetIds| == 0
    ensures NoRecordCalls(TryBlock(env).calls)
    ensures Fetched(TryBlock(env).calls) == [] && Written(TryBlock(env).calls) == []
  {
    QuietLog(TryBlock(env).calls);
  }

  /** A run fetches and writes what its issued part of the `try` block does. */
  lemma RunRecordCalls(env: Env)
    ensures Fetched(Run(env).log) == Fetched(Tried(env)) <= Fetched(TryBlock(env).calls)
    ensures Written(Run(env).log) == Written(Tried(env)) <= Written(TryBlock(env).calls)
  {
    RunEnds(env);
    PrefixLog(Tried(env), TryBlock(env).calls);
    if Run(env).outcome != Completed {
      var fail := [FailJob(env.jobId, FailMessage)];
      QuietLog(fail);
      FetchedAppend(Tried(env), fail);
      WrittenAppend(Tried(env), fail);
    }
  }

  /**
   * Whatever raises, the run requests pages 1, 2, 3, ... in that order, so
   * it never requests a page twice.
   */
  lemma PagesRequestedInOrder(env: Env)
    ensures var fetched := Fetched(Run(env).log);
            && (forall i :: 0 <= i < |fetched| ==> fetched[i] == i + 1)
            && (forall i, j :: 0 <= i < j < |fetched| ==> fetched[i] < fetched[j])
  {
    RunRecordCalls(env);
    if AddsFullName(MappedKeys(env.fieldMapping)) && |env.sheetIds| > 0 {
      TryShape(env);
      LoopFetches(env.sheetIds[0], env.pages, 1);
    } else {
      TryQuiet(env);
    }
  }

  /**
   * The only `addField` of `log` is the fifth call, for `fullName` on the
   * first sheet, and every record fetch and update comes after it.
   */
  predicate AddFieldFirst(env: Env, log: seq<Call>) {
    && (forall i :: 0 <= i < |log| && log[i].AddField? ==>
          i == 4 && |env.sheetIds| > 0 && log[i] == AddField(env.sheetIds[0], FullNameField))
    && (forall i :: 0 <= i < |log| && (log[i].GetRecords? || log[i].UpdateRecords?) ==>
          4 < i && log[4].AddField?)
  }

  lemma AddFieldFirstPrefix(env: Env, a: seq<Call>, b: seq<Call>)
    requires a <= b && AddFieldFirst(env, b)
    ensures AddFieldFirst(env, a)
  {
    assert forall i :: 0 <= i < |a| ==> a[i] == b[i];
  }

  lemma AddFieldFirstInTry(env: Env)
    ensures AddFieldFirst(env, TryBlock(env).calls)
  {
    var t := TryBlock(env).calls;
    if AddsFullName(MappedKeys(env.fieldMapping)) && |env.sheetIds| > 0 {
      var sheetId := env.sheetIds[0];
      var loop := LoopCalls(sheetId, env.pages, 1);
      var head := Preamble(env) + [AddField(sheetId, FullNameField)];
      var tail := if loop.threw then [] else [Completion(env)];
      TryShape(env);
      LoopEnds(sheetId, env.pages, 1);
      forall i | 0 <= i < |t|
        ensures t[i].AddField? ==> i == 4 && t[i] == AddField(sheetId, FullNameField)
        ensures t[i].GetRecords? || t[i].UpdateRecords? ==> 4 < i
      {
        if i < 5 {
          assert t[i] == head[i];
        } else if i < 5 + |loop.calls| {
          assert t[i] == loop.calls[i - 5];
        } else {
          assert t[i] == tail[i - 5 - |loop.calls|];
        }
      }
      assert t[4] == head[4];
    } else {
      TryQuiet(env);
      assert forall i :: 0 <= i < |t| ==> !t[i].AddField? by {
        if AddsFullName(MappedKeys(env.fieldMapping)) {
          assert t == Preamble(env);
        } else {
          assert t == Preamble(env) + [Completion(env)];
        }
      }
    }
  }

  /**
   * Whatever raises, `addField` is issued at most once, as the fifth call,
   * and before any record is fetched or updated. When both name fields were
   * mapped, there is a sheet and none of the four lookups raised, it is
   * issued: there is no check that the column already exists.
   */
  lemma AddFieldOnceBeforeFetches(env: Env)
    ensures AddFieldFirst(env, Run(env).log)
    ensures && AddsFullName(MappedKeys(env.fieldMapping))
            && |env.sheetIds| > 0
            && (env.brokenCall.None? || env.brokenCall.value >= 4)
            ==> |Run(env).log| > 4 && Run(env).log[4] == AddField(env.sheetIds[0], FullNameField)
  {
    var log := Run(env).log;
    RunEnds(env);
    AddFieldFirstInTry(env);
    AddFieldFirstPrefix(env, Tried(env), TryBlock(env).calls);
    if Run(env).outcome != Completed {
      assert log == Tried(env) + [FailJob(env.jobId, FailMessage)];
      assert forall i :: 0 <= i < |Tried(env)| ==> log[i] == Tried(env)[i];
    }
    if && AddsFullName(MappedKeys(env.fieldMapping))
       && |env.sheetIds| > 0
       && (env.brokenCall.None? || env.brokenCall.value >= 4) {
      TryShape(env);
      assert TryBlock(env).calls[4] == AddField(env.sheetIds[0], FullNameField);
      assert |Tried(env)| > 4 && Tried(env)[4] == TryBlock(env).calls[4];
      assert log[4] == Tried(env)[4];
    }
  }

  /**
   * With no remote call of the `try` block raising, both name fields
   * mapped and a sheet: the run fetches pages 1 up to the page where the
   * loop stops, writes back
   * the transformed records of every page before it, and completes exactly
   * when that page is empty; otherwise a record on it lacks a name part and
   * `fail` is issued right after that fetch, leaving the job failed unless
   * `fail` itself raises.
   */
  lemma BackfillRun(env: Env)
    requires env.brokenCall == None
    requires AddsFullName(MappedKeys(env.fieldMapping)) && |env.sheetIds| > 0
    ensures var stop := FirstStop(env.pages, 1);
            var fetched := Fetched(Run(env).log);
            var written := Written(Run(env).log);
            && |fetched| == stop
            && (forall i :: 0 <= i < |fetched| ==> fetched[i] == i + 1)
            && |written| == stop - 1
            && (forall i :: 0 <= i < |written| ==> TransformPage(FetchPage(env.pages, i + 1)) == Ok(written[i]))
            && (Run(env).outcome == Completed <==> FetchPage(env.pages, stop) == [])
            && (Run(env).outcome != Completed ==>
                  && Run(env).outcome == (if env.failRaises then Unhandled else Failed)
                  && Run(env).log == TryBlock(env).calls + [FailJob(env.jobId, FailMessage)]
                  && Run(env).log[|Run(env).log| - 2] == GetRecords(env.sheetIds[0], stop))
  {
    var sheetId := env.sheetIds[0];
    RunEnds(env);
    RunRecordCalls(env);
    TryShape(env);
    LoopFetches(sheetId, env.pages, 1);
    LoopWrites(sheetId, env.pages, 1);
    LoopEnds(sheetId, env.pages, 1);
    LoopLastFetch(sheetId, env.pages, 1);
  }

  /** The loop stops at `stop` when it passes every page from `pageNumber` before it. */
  lemma FirstStopAt(pages: seq<Page>, pageNumber: nat, stop: nat)
    requires pageNumber <= stop && StopsAt(pages, stop)
    requires forall p :: pageNumber <= p < stop ==> !StopsAt(pages, p)
    ensures FirstStop(pages, pageNumber) == stop
  {
  }

  /**
   * With no remote call raising: when pages 1 to `k` all have records with
   * both name parts and page `k + 1` is empty, the run makes exactly `k + 1`
   * fetches and `k` updates, update `i` carries transformed page `i + 1`,
   * and the job completes.
   */
  lemma BackfillCounts(env: Env, k: nat)
    requires env.brokenCall == None
    requires AddsFullName(MappedKeys(env.fieldMapping)) && |env.sheetIds| > 0
    requires forall p :: 1 <= p <= k ==>
      FetchPage(env.pages, p) != [] && TransformPage(FetchPage(env.pages, p)).Ok?
    requires FetchPage(env.pages, k + 1) == []
    ensures var fetched := Fetched(Run(env).log);
            var written := Written(Run(env).log);
            && fetched == seq(k + 1, i => i + 1)
            && |written| == k
            && (forall i :: 0 <= i < k ==> TransformPage(FetchPage(env.pages, i + 1)) == Ok(written[i]))
            && Run(env).outcome == Completed
  {
    FirstStopAt(env.pages, 1, k + 1);
    BackfillRun(env);
  }

  /**
   * With no remote call of the `try` block raising: when the first page
   * the loop cannot pass is page `p`, non-empty with a record lacking a
   * name part, the run
   * fetches pages 1 to `p`, writes back only pages 1 to `p - 1`, and issues
   * `fail` instead of `complete`: the job is failed, or unhandled when `fail`
   * itself raises.
   */
  lemma MissingNameAborts(env: Env, p: nat)
    requires env.brokenCall == None
    requires AddsFullName(MappedKeys(env.fieldMapping)) && |env.sheetIds| > 0
    requires 1 <= p
    requires forall q :: 1 <= q < p ==>
      FetchPage(env.pages, q) != [] && TransformPage(FetchPage(env.pages, q)).Ok?
    requires FetchPage(env.pages, p) != [] && TransformPage(FetchPage(env.pages, p)).Err?
    ensures var fetched := Fetched(Run(env).log);
            var written := Written(Run(env).log);
            && fetched == seq(p, i => i + 1)
            && |written| == p - 1
            && (forall i :: 0 <= i < p - 1 ==> TransformPage(FetchPage(env.pages, i + 1)) == Ok(written[i]))
            && Run(env).outcome == (if env.failRaises then Unhandled else Failed)
            && Run(env).log[|Run(env).log| - 1] == FailJob(env.jobId, FailMessage)
  {
    FirstStopAt(env.pages, 1, p);
    BackfillRun(env);
  }

  /**
   * With no remote call of the `try` block raising, the job completes
   * exactly when the guard is off, or when there is a sheet and the loop
   * stops on an empty page; otherwise it is failed, or unhandled when `fail`
   * itself raises.
   */
  lemma CleanRunOutcome(env: Env)
    requires env.brokenCall == None
    ensures Run(env).outcome != Completed ==>
      Run(env).outcome == (if env.failRaises then Unhandled else Failed)
    ensures Run(env).outcome == Completed <==>
      || !AddsFullName(MappedKeys(env.fieldMapping))
      || (|env.sheetIds| > 0 && FetchPage(env.pages, FirstStop(env.pages, 1)) == [])
  {
    RunEnds(env);
    if AddsFullName(MappedKeys(env.fieldMapping)) && |env.sheetIds| > 0 {
      TryShape(env);
      LoopEnds(env.sheetIds[0], env.pages, 1);
    }
  }

  /**
   * When the remote call at position `n` of the `try` block raises, the run
   * is the same as with nothing raising up to and including that call, then
   * `fail`: calls already issued, and so pages already written, stay, and
   * nothing after the failing call is issued. The job is failed, or left
   * unhandled when `fail` raises as well.
   */
  lemma RemoteFailureKeepsEarlierCalls(env: Env)
    requires env.brokenCall.Some? && env.brokenCall.value < |TryBlock(env).calls|
    ensures var clean := env.(brokenCall := None);
            var n := env.brokenCall.value;
            && TryBlock(env) == TryBlock(clean)
            && Run(env).log == TryBlock(clean).calls[..n + 1] + [FailJob(env.jobId, FailMessage)]
            && Run(env).outcome == (if env.failRaises then Unhandled else Failed)
            && Fetched(Run(env).log) <= Fetched(Run(clean).log)
            && Written(Run(env).log) <= Written(Run(clean).log)
  {
    var clean := env.(brokenCall := None);
    assert TryBlock(env) == TryBlock(clean);
    RunRecordCalls(env);
    RunRecordCalls(clean);
  }
}
