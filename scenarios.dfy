/**
 * Concrete runs of the `sheet:dynamicAPIfield` handler on a one-sheet
 * workbook whose mapping covered the two name fields.
 */
module JobScenarios {
  import opened Records
  import opened Mapping
  import opened DynamicFieldJob

  const Plan: seq<FieldMapping> := [
    FieldMapping(DestinationField("first_name")),
    FieldMapping(DestinationField("last_name")),
    FieldMapping(DestinationField("email"))]

  const Ada: Record := Record("rec1", map["first_name" := "Ada", "last_name" := "Lovelace"])

  function Workbook(pages: seq<Page>, brokenCall: Option<nat>, failRaises: bool): Env {
    Env("job1", "wb1", ["sheet1"], "map1", Plan, pages, brokenCall, failRaises)
  }

  /** The four lookups and the `addField` call that open every run below. */
  function UpToAddField(): seq<Call> {
    [AckJob("job1", AckInfo, AckProgress), GetWorkbook("wb1"), GetJob("job1"), GetExecutionPlan("map1"),
     AddField("sheet1", FullNameField)]
  }

  /** One page holding Ada's record: it is written back with `fullName` set to "Ada Lovelace". */
  lemma AdaLovelaceBackfilled()
    ensures Run(Workbook([[Ada]], None, false)) == JobRun(
      UpToAddField() + [
        GetRecords("sheet1", 1),
        UpdateRecords("sheet1", [Record("rec1", map["first_name" := "Ada", "last_name" := "Lovelace",
                                                    "fullName" := "Ada Lovelace"])]),
        GetRecords("sheet1", 2),
        CompleteJob("job1", CompleteMessage, true)],
      Completed)
  {
    var env := Workbook([[Ada]], None, false);
    var backfilled := Record("rec1", map["first_name" := "Ada", "last_name" := "Lovelace",
                                         "fullName" := "Ada Lovelace"]);
    assert MappedKeys(Plan) == ["first_name", "last_name", "email"];
    assert "Ada" + " " + "Lovelace" == "Ada Lovelace";
    assert Ada.values[FullNameKey := "Ada Lovelace"] == backfilled.values;
    assert TransformRecord(Ada) == Ok(backfilled);
    assert [Ada][0] == Ada && [Ada][1..] == [];
    assert TransformPage([Ada][1..]) == Ok([]);
    assert [backfilled] + [] == [backfilled];
    assert TransformPage([Ada]) == Ok([backfilled]);
    assert FetchPage(env.pages, 2) == [];
    assert LoopCalls("sheet1", env.pages, 1).calls
      == [GetRecords("sheet1", 1), UpdateRecords("sheet1", [backfilled]), GetRecords("sheet1", 2)];
  }

  /** A record without a last name: nothing is written back and the job is failed. */
  lemma MissingLastNameFails()
    ensures var noLast := Record("rec2", map["first_name" := "Grace"]);
            Run(Workbook([[noLast]], None, false)) == JobRun(
              UpToAddField() + [GetRecords("sheet1", 1), FailJob("job1", FailMessage)],
              Failed)
  {
    var noLast := Record("rec2", map["first_name" := "Grace"]);
    assert MappedKeys(Plan) == ["first_name", "last_name", "email"];
    assert TransformPage([noLast]) == Err(MissingField("rec2", "last_name"));
  }

  /** `complete` itself raising sends the run to `catch`: the job is failed after all. */
  lemma CompleteRaisesFails()
    ensures Run(Workbook([], Some(6), false)) == JobRun(
      UpToAddField() + [GetRecords("sheet1", 1), CompleteJob("job1", CompleteMessage, true),
                   FailJob("job1", FailMessage)],
      Failed)
  {
    assert MappedKeys(Plan) == ["first_name", "last_name", "email"];
    assert FetchPage([], 1) == [];
  }

  /**
   * An outage that makes both `complete` and the `fail` of the `catch`
   * block raise: the handler's promise rejects and the job is left unhandled.
   */
  lemma CompleteAndFailRaiseUnhandled()
    ensures Run(Workbook([], Some(6), true)) == JobRun(
      UpToAddField() + [GetRecords("sheet1", 1), CompleteJob("job1", CompleteMessage, true),
                        FailJob("job1", FailMessage)],
      Unhandled)
  {
    assert MappedKeys(Plan) == ["first_name", "last_name", "email"];
    assert FetchPage([], 1) == [];
  }
}
