/** The TCA metadata listener: on Doctrine's `loadClassMetadata` event it
    fills a class's metadata from the Extbase data map of that class.

    The pure functions below say what one call does to the metadata's value
    (`Typo3Metadata` and its parts); the `Listener` class does it in place,
    statement by statement as the listener does, and is proved to agree with
    them. The lemmas state what the translation promises. */
module Typo3TcaMetadataListener {
  import opened Php
  import opened Extbase
  import opened Doctrine

  const AbstractDomainObjectClass := "Tx_Doctrine2_DomainObject_AbstractDomainObject"
  const LoadClassMetadataEvent := "loadClassMetadata"
  const MissingServiceMessage :=
    "Cannot load Typo3 Metadata without Tx_Doctrine2_Mapping_MetadataService being set on metadata listener."

  /** A property as PHP reflection lists it. */
  datatype ReflectedProperty = ReflectedProperty(name: string, isStatic: bool)

  /** What reflection reports about the class being loaded: whether it is a
      strict subclass of `Tx_Doctrine2_DomainObject_AbstractEntity`, and its
      properties in declaration order. */
  datatype ClassReflection = ClassReflection(
    isEntitySubclass: bool,
    properties: seq<ReflectedProperty>)

  /** How `loadClassMetadata` ends: normally, or with a `RuntimeException`. */
  datatype Outcome = Done | RuntimeError(message: string)

  /** The identifier field every domain object inherits. */
  const UidField := FieldMapping("uid", Str("uid"), "integer", true)

  /** An integer field mapping without the `id` flag, as written for `pid` and
      `languageUid`. */
  function IntegerField(fieldName: string, columnName: Scalar): FieldMapping
  {
    FieldMapping(fieldName, columnName, "integer", false)
  }

  // ---------------------------------------------------------------------------
  // Relations between two metadata values

  /** Only the two mapping dictionaries may differ. */
  predicate SameExceptMappings(m: Metadata, r: Metadata)
  {
    r == m.(fieldMappings := r.fieldMappings, associationMappings := r.associationMappings)
  }

  /** No mapping name disappears. */
  predicate Grows(m: Metadata, r: Metadata)
  {
    m.fieldMappings.Keys <= r.fieldMappings.Keys
    && m.associationMappings.Keys <= r.associationMappings.Keys
  }

  /** Both dictionaries say the same about the name `k`. */
  predicate AgreeAt(m: Metadata, r: Metadata, k: string)
  {
    (k in m.fieldMappings <==> k in r.fieldMappings)
    && (k in m.fieldMappings ==> r.fieldMappings[k] == m.fieldMappings[k])
    && (k in m.associationMappings <==> k in r.associationMappings)
    && (k in m.associationMappings ==> r.associationMappings[k] == m.associationMappings[k])
  }

  // ---------------------------------------------------------------------------
  // The translation, as functions on metadata values

  /** `loadAbstractDomainObject`. */
  function AbstractDomainObjectMetadata(m: Metadata): Metadata
  {
    m.(isMappedSuperclass := true,
       fieldMappings := m.fieldMappings["uid" := UidField],
       idGenerator := GeneratorAuto)
  }

  /** The table name: lower-cased when it is the class's short name, then
      replaced by the data map's table. */
  function PrimaryTable(dm: DataMap, m: Metadata): (r: Metadata)
    ensures r == m.(tableName := dm.tableName)
  {
    var lowered := if m.shortName == m.tableName then m.(tableName := StrToLower(m.tableName)) else m;
    lowered.(tableName := dm.tableName)
  }

  /** Re-mapping of `pid` and `languageUid`. The column name written is the
      value of `column && isset(...)`, which is the boolean `true`. */
  function SpecialColumns(dm: DataMap, m: Metadata): (r: Metadata)
    ensures r == m.(fieldMappings := r.fieldMappings)
    ensures r.fieldMappings.Keys == m.fieldMappings.Keys
    ensures forall k :: k in m.fieldMappings && k != "pid" && k != "languageUid" ==>
              r.fieldMappings[k] == m.fieldMappings[k]
    ensures "pid" in m.fieldMappings ==>
              r.fieldMappings["pid"] == if Truthy(dm.pageIdColumnName)
                                        then IntegerField("pid", Bool(true))
                                        else m.fieldMappings["pid"]
    ensures "languageUid" in m.fieldMappings ==>
              r.fieldMappings["languageUid"] == if Truthy(dm.languageIdColumnName)
                                                then IntegerField("languageUid", Bool(true))
                                                else m.fieldMappings["languageUid"]
  {
    var pidColumnName := Truthy(dm.pageIdColumnName) && "pid" in m.fieldMappings;
    var withPid :=
      if pidColumnName
      then m.(fieldMappings := m.fieldMappings["pid" := IntegerField("pid", Bool(pidColumnName))])
      else m;
    var lidColumnName := Truthy(dm.languageIdColumnName) && "languageUid" in withPid.fieldMappings;
    if lidColumnName
    then withPid.(fieldMappings := withPid.fieldMappings["languageUid" := IntegerField("languageUid", Bool(lidColumnName))])
    else withPid
  }

  /** The loop skips static properties, properties the data map does not
      persist, and properties whose own name is already mapped. */
  predicate Skipped(p: ReflectedProperty, dm: DataMap, m: Metadata)
  {
    p.isStatic
    || !dm.isPersistableProperty(p.name)
    || p.name in m.fieldMappings
    || p.name in m.associationMappings
  }

  /** The field mapping of a column without relation. */
  function FieldFor(cm: ColumnMap, dm: DataMap, svc: MetadataService): FieldMapping
  {
    FieldMapping(cm.propertyName, Str(cm.columnName),
                 svc.getTCAColumnType(dm.tableName, cm.columnName), false)
  }

  /** The many-to-one mapping of a has-one column, with the array nesting
      of the source: `cascade` lands inside `joinColumns`, next to the join
      column at index 0, and the mapping itself has no `cascade` key. */
  function ManyToOneFor(cm: ColumnMap, className: string, svc: MetadataService): AssociationMapping
  {
    ManyToOne(cm.propertyName,
              svc.getTargetEntity(className, cm.propertyName),
              map[IntKey(0) := JoinColumn(cm.columnName, cm.parentTableFieldName),
                  StrKey("cascade") := StringList(["persist"])],
              [])
  }

  /** One iteration of the property loop. The skip test looks at the
      reflected name; the mapping is stored under the column map's
      property name. */
  function MapProperty(p: ReflectedProperty, dm: DataMap, svc: MetadataService, m: Metadata): (r: Metadata)
    ensures Skipped(p, dm, m) ==> r == m
    ensures SameExceptMappings(m, r) && Grows(m, r)
    ensures forall k :: k != dm.columnMap(p.name).propertyName ==> AgreeAt(m, r, k)
    ensures var cm := dm.columnMap(p.name);
            !Skipped(p, dm, m) && cm.typeOfRelation == RelationNone ==>
              r.associationMappings == m.associationMappings
              && cm.propertyName in r.fieldMappings
              && r.fieldMappings[cm.propertyName] == FieldFor(cm, dm, svc)
    ensures var cm := dm.columnMap(p.name);
            !Skipped(p, dm, m) && cm.typeOfRelation == RelationHasOne ==>
              r.fieldMappings == m.fieldMappings
              && cm.propertyName in r.associationMappings
              && r.associationMappings[cm.propertyName] == ManyToOneFor(cm, m.name, svc)
    ensures dm.columnMap(p.name).typeOfRelation !in {RelationNone, RelationHasOne} ==> r == m
  {
    if Skipped(p, dm, m) then m
    else
      var cm := dm.columnMap(p.name);
      match cm.typeOfRelation
      case RelationNone =>
        m.(fieldMappings := m.fieldMappings[cm.propertyName := FieldFor(cm, dm, svc)])
      case RelationHasOne =>
        m.(associationMappings := m.associationMappings[cm.propertyName := ManyToOneFor(cm, m.name, svc)])
      case _ => m
  }

  /** The whole property loop, in reflection order. */
  function MapProperties(ps: seq<ReflectedProperty>, dm: DataMap, svc: MetadataService, m: Metadata): (r: Metadata)
    ensures SameExceptMappings(m, r) && Grows(m, r)
    decreases |ps|
  {
    if ps == [] then m else MapProperties(ps[1..], dm, svc, MapProperty(ps[0], dm, svc, m))
  }

  /** `addTypo3Metadata`: the value the metadata has after one call. */
  function Typo3Metadata(m: Metadata, refl: ClassReflection, svc: MetadataService): (r: Metadata)
    ensures r.name == m.name && r.shortName == m.shortName
    ensures Grows(m, r)
    ensures m.name == AbstractDomainObjectClass ==>
              r.isMappedSuperclass
              && r.idGenerator == GeneratorAuto
              && r.fieldMappings.Keys == m.fieldMappings.Keys + {"uid"}
              && r.fieldMappings["uid"] == UidField
              && (forall k :: k in m.fieldMappings && k != "uid" ==> r.fieldMappings[k] == m.fieldMappings[k])
              && r.associationMappings == m.associationMappings
              && r.tableName == m.tableName
    ensures (m.name != AbstractDomainObjectClass
             && (!refl.isEntitySubclass || svc.getDataMap(m.name).None?)) ==> r == m
    ensures (m.name != AbstractDomainObjectClass && refl.isEntitySubclass
             && svc.getDataMap(m.name).Some?) ==>
              r.tableName == svc.getDataMap(m.name).value.tableName
              && r.isMappedSuperclass == m.isMappedSuperclass
              && r.idGenerator == m.idGenerator
  {
    if m.name == AbstractDomainObjectClass then AbstractDomainObjectMetadata(m)
    else if !refl.isEntitySubclass then m
    else match svc.getDataMap(m.name)
      case None => m
      case Some(dm) => MapProperties(refl.properties, dm, svc, SpecialColumns(dm, PrimaryTable(dm, m)))
  }

  // ---------------------------------------------------------------------------
  // The listener, in place

  class Listener {
    var metadataService: Option<MetadataService>

    constructor ()
      ensures metadataService == None
    {
      metadataService := None;
    }

    method InjectMetadataService(service: MetadataService)
      modifies this
      ensures metadataService == Some(service)
    {
      metadataService := Some(service);
    }

    /** The event handler: refuses to run without a metadata service, and
        otherwise translates the event's metadata. */
    method LoadClassMetadata(metadata: ClassMetadataInfo, refl: ClassReflection) returns (outcome: Outcome)
      modifies metadata
      ensures outcome.RuntimeError? <==> metadataService.None?
      ensures metadataService.None? ==>
                outcome == RuntimeError(MissingServiceMessage) && unchanged(metadata)
      ensures metadataService.Some? ==>
                metadata.Value() == Typo3Metadata(old(metadata.Value()), refl, metadataService.value)
    {
      if metadataService.None? {
        return RuntimeError(MissingServiceMessage);
      }
      AddTypo3Metadata(metadata, refl);
      outcome := Done;
    }

    method LoadAbstractDomainObject(metadata: ClassMetadataInfo)
      modifies metadata
      ensures metadata.Value() == AbstractDomainObjectMetadata(old(metadata.Value()))
    {
      metadata.isMappedSuperclass := true;
      metadata.MapField(UidField);
      metadata.SetIdGeneratorType(GeneratorAuto);
    }

    method AddTypo3Metadata(metadata: ClassMetadataInfo, refl: ClassReflection)
      requires metadataService.Some?
      modifies metadata
      ensures metadata.Value() == Typo3Metadata(old(metadata.Value()), refl, metadataService.value)
    {
      var className := metadata.name;
      if className == AbstractDomainObjectClass {
        LoadAbstractDomainObject(metadata);
        return;
      }
      if !refl.isEntitySubclass {
        return;
      }
      var service := metadataService.value;
      var found := service.getDataMap(className);
      if found.None? {
        return;
      }
      var dataMap := found.value;

      if metadata.shortName == metadata.tableName {
        metadata.tableName := StrToLower(metadata.tableName);
      }
      metadata.SetPrimaryTable(dataMap.tableName);

      var pidColumnName := Truthy(dataMap.pageIdColumnName) && "pid" in metadata.fieldMappings;
      if pidColumnName {
        metadata.MapField(IntegerField("pid", Bool(pidColumnName)));
      }
      var lidColumnName := Truthy(dataMap.languageIdColumnName) && "languageUid" in metadata.fieldMappings;
      if lidColumnName {
        metadata.MapField(IntegerField("languageUid", Bool(lidColumnName)));
      }

      MapReflectedProperties(metadata, dataMap, service, refl.properties);
    }

    /** The `foreach` over the reflected properties: each one in order, every
        iteration seeing the mappings the earlier ones added. */
    method MapReflectedProperties(metadata: ClassMetadataInfo, dataMap: DataMap, service: MetadataService,
                                  properties: seq<ReflectedProperty>)
      modifies metadata
      ensures metadata.Value() == MapProperties(properties, dataMap, service, old(metadata.Value()))
    {
      ghost var start := metadata.Value();
      var i := 0;
      while i < |properties|
        invariant 0 <= i <= |properties|
        invariant MapProperties(properties[i..], dataMap, service, metadata.Value())
                  == MapProperties(properties, dataMap, service, start)
      {
        var property := properties[i];
        ghost var before := metadata.Value();
        assert properties[i..][1..] == properties[i + 1..];
        if property.isStatic
           || !dataMap.isPersistableProperty(property.name)
           || property.name in metadata.fieldMappings
           || property.name in metadata.associationMappings
        {
          i := i + 1;
          continue;
        }
        assert !Skipped(property, dataMap, before);
        var columnMap := dataMap.columnMap(property.name);
        match columnMap.typeOfRelation {
          case RelationNone =>
            metadata.MapField(FieldFor(columnMap, dataMap, service));
            assert metadata.Value() == before.(fieldMappings := before.fieldMappings[
                                         columnMap.propertyName := FieldFor(columnMap, dataMap, service)]);
          case RelationHasOne =>
            metadata.MapManyToOne(ManyToOneFor(columnMap, metadata.name, service));
            assert metadata.Value() == before.(associationMappings := before.associationMappings[
                                         columnMap.propertyName := ManyToOneFor(columnMap, before.name, service)]);
          case _ =>
        }
        assert metadata.Value() == MapProperty(property, dataMap, service, before);
        i := i + 1;
    }
    }

    /** `getSubscribedEvents`: the listener subscribes to the metadata-load
        event and to nothing else. */
    function SubscribedEvents(): (events: seq<string>)
      ensures events == [LoadClassMetadataEvent]
    {
      [LoadClassMetadataEvent]
    }
  }
}
