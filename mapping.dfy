/**
 * The mapped destination fields of the mapping job and the guard that decides
 * whether the `fullName` column is created and backfilled.
 */
module Mapping {
  import opened Records

  /** The destination field of one mapping entry; only its key is read. */
  datatype DestinationField = DestinationField(key: string)

  /** One entry of the mapping job's `fieldMapping` plan. */
  datatype FieldMapping = FieldMapping(destinationField: DestinationField)

  /** The destination key of each entry, in plan order. */
  function MappedKeys(fieldMapping: seq<FieldMapping>): seq<string> {
    seq(|fieldMapping|, i requires 0 <= i < |fieldMapping| => fieldMapping[i].destinationField.key)
  }

  /**
   * Pushes the destination key of every mapping entry onto an initially
   * empty list: one key per entry, in plan order, duplicates kept.
   */
  method CollectMappedFields(fieldMapping: seq<FieldMapping>) returns (mappedFields: seq<string>)
    ensures |mappedFields| == |fieldMapping|
    ensures forall i :: 0 <= i < |fieldMapping| ==>
      mappedFields[i] == fieldMapping[i].destinationField.key
    ensures mappedFields == MappedKeys(fieldMapping)
  {
    mappedFields := [];
    for i := 0 to |fieldMapping|
      invariant |mappedFields| == i
      invariant forall j :: 0 <= j < i ==> mappedFields[j] == fieldMapping[j].destinationField.key
    {
      var destinationFieldKey := fieldMapping[i].destinationField.key;
      mappedFields := mappedFields + [destinationFieldKey];
    }
  }

  /** The `fullName` column is added only when both name fields were mapped. */
  predicate AddsFullName(mappedFields: seq<string>) {
    FirstNameKey in mappedFields && LastNameKey in mappedFields
  }

  /**
   * The guard holds exactly when some entry maps onto `first_name` and some
   * entry maps onto `last_name`; the order and number of entries do not matter.
   */
  lemma GuardOnPlan(fieldMapping: seq<FieldMapping>)
    ensures AddsFullName(MappedKeys(fieldMapping)) <==>
      && (exists i :: 0 <= i < |fieldMapping| && fieldMapping[i].destinationField.key == FirstNameKey)
      && (exists i :: 0 <= i < |fieldMapping| && fieldMapping[i].destinationField.key == LastNameKey)
  {
    var keys := MappedKeys(fieldMapping);
    forall i | 0 <= i < |fieldMapping| ensures keys[i] in keys && keys[i] == fieldMapping[i].destinationField.key {
    }
    if FirstNameKey in keys {
      var i :| 0 <= i < |keys| && keys[i] == FirstNameKey;
      assert fieldMapping[i].destinationField.key == FirstNameKey;
    }
    if LastNameKey in keys {
      var i :| 0 <= i < |keys| && keys[i] == LastNameKey;
      assert fieldMapping[i].destinationField.key == LastNameKey;
    }
  }
}
