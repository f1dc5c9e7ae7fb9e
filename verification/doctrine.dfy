/** The part of Doctrine's `ClassMetadataInfo` that the listener reads and
    writes. `mapField`, `mapManyToOne`, `setPrimaryTable` and
    `setIdGeneratorType` are modelled as the plain insertions and
    assignments they amount to; Doctrine's validation and completion of
    mapping defaults are not part of this model. */
module Doctrine {
  import opened Php

  /** `ClassMetadataInfo::GENERATOR_TYPE_*`. */
  datatype IdGenerator =
    | GeneratorAuto
    | GeneratorSequence
    | GeneratorTable
    | GeneratorIdentity
    | GeneratorNone
    | GeneratorUuid

  /** A field mapping array: `fieldName`, `columnName`, `type` and the `id` flag
      (an absent `id` key is `false`). */
  datatype FieldMapping = FieldMapping(
    fieldName: string,
    columnName: Scalar,
    fieldType: string,
    id: bool)

  /** A key of a PHP array. */
  datatype ArrayKey = IntKey(i: int) | StrKey(k: string)

  /** An entry of a `joinColumns` array: a join column, or (as it happens
      in the listener) a list of strings placed there. */
  datatype JoinEntry =
    | JoinColumn(name: string, referencedColumnName: string)
    | StringList(items: seq<string>)

  /** A many-to-one association mapping array; an absent `cascade` key is the
      empty list. */
  datatype AssociationMapping = ManyToOne(
    fieldName: string,
    targetEntity: string,
    joinColumns: map<ArrayKey, JoinEntry>,
    cascade: seq<string>)

  /** The value of a metadata object at one moment. */
  datatype Metadata = Metadata(
    name: string,
    shortName: string,
    isMappedSuperclass: bool,
    tableName: string,
    idGenerator: IdGenerator,
    fieldMappings: map<string, FieldMapping>,
    associationMappings: map<string, AssociationMapping>)

  class ClassMetadataInfo {
    /** The class name, and the short name reflection reports for it. */
    const name: string
    const shortName: string
    var isMappedSuperclass: bool
    /** `$table['name']` */
    var tableName: string
    var idGenerator: IdGenerator
    var fieldMappings: map<string, FieldMapping>
    var associationMappings: map<string, AssociationMapping>

    function Value(): Metadata
      reads this
    {
      Metadata(name, shortName, isMappedSuperclass, tableName, idGenerator,
               fieldMappings, associationMappings)
    }

    /** Fresh metadata for a class whose table the driver has named. */
    constructor (name: string, shortName: string, tableName: string)
      ensures Value() == Metadata(name, shortName, false, tableName, GeneratorNone, map[], map[])
    {
      this.name := name;
      this.shortName := shortName;
      this.isMappedSuperclass := false;
      this.tableName := tableName;
      this.idGenerator := GeneratorNone;
      this.fieldMappings := map[];
      this.associationMappings := map[];
    }

    method MapField(mapping: FieldMapping)
      modifies this
      ensures Value() == old(Value()).(fieldMappings := old(fieldMappings)[mapping.fieldName := mapping])
    {
      fieldMappings := fieldMappings[mapping.fieldName := mapping];
    }

    method MapManyToOne(mapping: AssociationMapping)
      modifies this
      ensures Value() == old(Value()).(associationMappings := old(associationMappings)[mapping.fieldName := mapping])
    {
      associationMappings := associationMappings[mapping.fieldName := mapping];
    }

    method SetPrimaryTable(tableName: string)
      modifies this
      ensures Value() == old(Value()).(tableName := tableName)
    {
      this.tableName := tableName;
    }

    method SetIdGeneratorType(generator: IdGenerator)
      modifies this
      ensures Value() == old(Value()).(idGenerator := generator)
    {
      idGenerator := generator;
    }
  }
}
