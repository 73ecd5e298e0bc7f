/**
 * The per-record derivation of the `fullName` column: the callback that the
 * `sheet:dynamicAPIfield` job maps over every fetched page of records.
 */
module Records {

  const FirstNameKey: string := "first_name"
  const LastNameKey: string := "last_name"
  const FullNameKey: string := "fullName"

  /**
   * A sheet record: its id and the value of each of its fields, keyed by
   * field key. The platform wraps each value as `{ value: v }`; the wrapper
   * carries nothing else here and is dropped.
   */
  datatype Record = Record(id: string, values: map<string, string>)

  /** One page of records, in the order the platform returned them. */
  type Page = seq<Record>

  /**
   * Reading `.value` of a field the record does not have raises a TypeError
   * in the handler. The TypeError names neither the record nor the field;
   * this payload is the model's own way of identifying the first record
   * that fails and the name part it lacks.
   */
  datatype MissingField = MissingField(recordId: string, key: string)

  datatype Result<T> = Ok(value: T) | Err(error: MissingField)

  /** The record has both fields the full name is built from. */
  predicate HasNameParts(r: Record) {
    FirstNameKey in r.values && LastNameKey in r.values
  }

  /**
   * Sets `fullName` to the first name, a space and the last name; the id and
   * every other value are kept. The first name is read first, so a record
   * lacking both fields reports `first_name`.
   */
  function TransformRecord(r: Record): (res: Result<Record>)
    ensures res.Ok? <==> HasNameParts(r)
    ensures res.Err? ==>
      res.error == MissingField(r.id, if FirstNameKey in r.values then LastNameKey else FirstNameKey)
    ensures res.Ok? ==> res.value.id == r.id
    ensures res.Ok? ==> res.value.values.Keys == r.values.Keys + {FullNameKey}
    ensures res.Ok? ==>
      res.value.values[FullNameKey] == r.values[FirstNameKey] + " " + r.values[LastNameKey]
    ensures res.Ok? ==>
      forall k :: k in r.values && k != FullNameKey ==> res.value.values[k] == r.values[k]
  {
    if FirstNameKey !in r.values then Err(MissingField(r.id, FirstNameKey))
    else if LastNameKey !in r.values then Err(MissingField(r.id, LastNameKey))
    else
      var fullName := r.values[FirstNameKey] + " " + r.values[LastNameKey];
      Ok(Record(r.id, r.values[FullNameKey := fullName]))
  }

  /**
   * Transforms a page record by record, in order; the first record that
   * lacks a name part aborts the whole page with its error.
   */
  function TransformPage(records: Page): Result<Page> {
    if records == [] then Ok([])
    else
      match TransformRecord(records[0])
      case Err(e) => Err(e)
      case Ok(r) =>
        match TransformPage(records[1..])
        case Err(e) => Err(e)
        case Ok(rest) => Ok([r] + rest)
  }

  /**
   * A page transforms exactly when every record has both name parts, and the
   * result then holds the transform of each record, at the same position.
   */
  lemma {:induction false} TransformPageOk(records: Page)
    ensures TransformPage(records).Ok? <==> forall i :: 0 <= i < |records| ==> HasNameParts(records[i])
    ensures TransformPage(records).Ok? ==>
      var updated := TransformPage(records).value;
      && |updated| == |records|
      && forall i :: 0 <= i < |records| ==> TransformRecord(records[i]) == Ok(updated[i])
  {
    if records != [] {
      TransformPageOk(records[1..]);
      assert forall i :: 1 <= i < |records| ==> records[i] == records[1..][i - 1];
    }
  }

  /** A page that does not transform reports the error of its first record without a name part. */
  lemma {:induction false} TransformPageErr(records: Page)
    requires TransformPage(records).Err?
    ensures exists i :: && 0 <= i < |records|
                        && TransformRecord(records[i]) == Err(TransformPage(records).error)
                        && forall j :: 0 <= j < i ==> HasNameParts(records[j])
  {
    if TransformRecord(records[0]).Ok? {
      TransformPageErr(records[1..]);
      var i :| && 0 <= i < |records[1..]|
               && TransformRecord(records[1..][i]) == Err(TransformPage(records).error)
               && forall j :: 0 <= j < i ==> HasNameParts(records[1..][j]);
      assert TransformRecord(records[i + 1]) == Err(TransformPage(records).error);
    } else {
      assert TransformRecord(records[0]) == Err(TransformPage(records).error);
    }
  }

  /** Deriving the full name again from an already backfilled record changes nothing. */
  lemma TransformRecordIdempotent(r: Record)
    requires TransformRecord(r).Ok?
    ensures TransformRecord(TransformRecord(r).value) == TransformRecord(r)
  {
    var t := TransformRecord(r).value;
    assert t.values[FirstNameKey] == r.values[FirstNameKey];
    assert t.values[LastNameKey] == r.values[LastNameKey];
    assert t.values[FullNameKey := t.values[FullNameKey]] == t.values;
  }

  /**
   * Running the backfill over a page it has already written back produces
   * the same page: the derived column is a function of the other two.
   */
  lemma {:induction false} TransformPageIdempotent(records: Page)
    requires TransformPage(records).Ok?
    ensures TransformPage(TransformPage(records).value) == TransformPage(records)
  {
    if records != [] {
      TransformRecordIdempotent(records[0]);
      TransformPageIdempotent(records[1..]);
    }
  }
}
