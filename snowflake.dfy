/**
 * The Snowflake components a GoodData output port may depend on, and the
 * metadata (database, schema, tables or views) the provisioner derives from them
 * to create a data source and generate a logical data model.
 */
module Snowflake {
  import opened Wrappers

  /** A column of a declared table or data contract (an OpenMetadata column). */
  datatype Column = Column(name: string, dataType: string)

  datatype TableAndSchema = TableAndSchema(tableName: string, schema: seq<Column>)

  /** The specific section of a Snowflake storage area. */
  datatype StorageAreaSpecific = StorageAreaSpecific(tables: seq<TableAndSchema>, database: string, schema: string)

  /** The specific section of a Snowflake output port; `tableName` is parsed but never used. */
  datatype OutputPortSpecific = OutputPortSpecific(viewName: string, tableName: string, database: string, schema: string)

  datatype ObjectType = TABLE | VIEW

  datatype SnowflakeObject = SnowflakeObject(name: string, schema: seq<Column>, objectType: ObjectType)

  datatype SnowflakeMetadata = SnowflakeMetadata(database: string, schema: string, objects: seq<SnowflakeObject>)

  /**
   * A dependency seen through its typed Snowflake class. Its specific field is the outcome
   * of parsing its specific section against that class's schema (the parser's
   * error list on failure).
   */
  datatype SnowflakeComponent =
    | SnowflakeStorageArea(id: string, name: string, storageSpecific: Result<StorageAreaSpecific, seq<string>>)
    | SnowflakeOutputPort(id: string, name: string, dataContractSchema: seq<Column>,
                          outputPortSpecific: Result<OutputPortSpecific, seq<string>>)
  {
    /** `get_snowflake_metadata` of either class. */
    function GetSnowflakeMetadata(): (r: Result<SnowflakeMetadata, seq<string>>)
      // a parse failure of the specific section is returned unchanged, and is the only failure
      ensures SnowflakeStorageArea? ==>
        (r.Failure? <==> storageSpecific.Failure?) &&
        (storageSpecific.Failure? ==> r.error == storageSpecific.error)
      ensures SnowflakeOutputPort? ==>
        (r.Failure? <==> outputPortSpecific.Failure?) &&
        (outputPortSpecific.Failure? ==> r.error == outputPortSpecific.error)
      // a storage area: database and schema copied, one TABLE per declared table, in order
      ensures SnowflakeStorageArea? && storageSpecific.Success? ==>
        var s := storageSpecific.value;
        && r.value.database == s.database && r.value.schema == s.schema
        && |r.value.objects| == |s.tables|
        && forall i :: 0 <= i < |s.tables| ==>
             r.value.objects[i] == SnowflakeObject(s.tables[i].tableName, s.tables[i].schema, TABLE)
      // an output port: database and schema copied, exactly one VIEW with the contract's schema
      ensures SnowflakeOutputPort? && outputPortSpecific.Success? ==>
        var s := outputPortSpecific.value;
        && r.value.database == s.database && r.value.schema == s.schema
        && r.value.objects == [SnowflakeObject(s.viewName, dataContractSchema, VIEW)]
    {
      match this
      case SnowflakeStorageArea(_, _, specific) =>
        (match specific
         case Failure(errors) => Failure(errors)
         case Success(s) => Success(SnowflakeMetadata(s.database, s.schema, TableObjects(s.tables))))
      case SnowflakeOutputPort(_, _, contract, specific) =>
        (match specific
         case Failure(errors) => Failure(errors)
         case Success(s) => Success(SnowflakeMetadata(s.database, s.schema, [SnowflakeObject(s.viewName, contract, VIEW)])))
    }
  }

  /** One TABLE object per declared table, in order. */
  function TableObjects(tables: seq<TableAndSchema>): (objects: seq<SnowflakeObject>)
    ensures |objects| == |tables|
    ensures forall i :: 0 <= i < |tables| ==>
      objects[i].name == tables[i].tableName && objects[i].schema == tables[i].schema && objects[i].objectType == TABLE
    decreases |tables|
  {
    if tables == [] then []
    else [SnowflakeObject(tables[0].tableName, tables[0].schema, TABLE)] + TableObjects(tables[1..])
  }

  /** An output port's declared `tableName` has no influence on its metadata. */
  lemma OutputPortIgnoresTableName(id: string, name: string, contract: seq<Column>, s: OutputPortSpecific, other: string)
    ensures SnowflakeOutputPort(id, name, contract, Success(s)).GetSnowflakeMetadata()
         == SnowflakeOutputPort(id, name, contract, Success(s.(tableName := other))).GetSnowflakeMetadata()
  {
  }
}
