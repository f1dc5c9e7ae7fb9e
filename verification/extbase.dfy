/** Extbase's persistence mapping and the metadata service, consumed only
    through their interfaces. Their own logic (reading TCA, resolving types
    and target classes) is not part of this model: every query is a
    function-valued field, so the model holds for every answer it may give. */
module Extbase {
  import opened Php

  /** The relation kinds of an Extbase column map. */
  datatype Relation =
    | RelationNone
    | RelationHasOne
    | RelationHasMany
    | RelationBelongsToMany
    | RelationHasAndBelongsToMany

  /** What `getColumnMap($propertyName)` reports about one property. */
  datatype ColumnMap = ColumnMap(
    typeOfRelation: Relation,
    propertyName: string,
    columnName: string,
    parentTableFieldName: string)

  /** An Extbase data map: the table of a domain class and its column maps. */
  datatype DataMap = DataMap(
    tableName: string,
    pageIdColumnName: Option<string>,
    languageIdColumnName: Option<string>,
    isPersistableProperty: string -> bool,
    columnMap: string -> ColumnMap)

  /** The metadata service the listener is injected with. `getDataMap`
      answers `None` where PHP gets a falsy value. */
  datatype MetadataService = MetadataService(
    getDataMap: string -> Option<DataMap>,
    getTCAColumnType: (string, string) -> string,
    getTargetEntity: (string, string) -> string)

  /** Extbase builds the column map of each persistable property under that
      property's own name. The listener does not check this; lemmas that
      need it say so. */
  ghost predicate ColumnMapsKeyedByProperty(dm: DataMap)
  {
    forall n :: dm.isPersistableProperty(n) ==> dm.columnMap(n).propertyName == n
  }
}
