/** Two places where the listener's code, as written, does not do what it
    evidently means to do. Each has the as-written behaviour exhibited over
    the listener's own definitions and a corrected definition with the
    intended property proved. The listener itself keeps the code as written. */
module Findings {
  import opened Php
  import opened Extbase
  import opened Doctrine
  import opened Typo3TcaMetadataListener

  // ---------------------------------------------------------------------------
  // `$pidColumnName = $dataMap->getPageIdColumnName() && isset(...)`:
  // `&&` binds tighter than `=`, so the variable holds a boolean.

  /** As written, `pid` and `languageUid` are re-mapped to the column `true`,
      never to the column the data map declares. */
  lemma SpecialColumnNameIsBoolean(dm: DataMap, m: Metadata)
    ensures var r := SpecialColumns(dm, m);
            (Truthy(dm.pageIdColumnName) && "pid" in m.fieldMappings ==>
               r.fieldMappings["pid"].columnName == Bool(true)
               && r.fieldMappings["pid"].columnName != Str(dm.pageIdColumnName.value))
            && (Truthy(dm.languageIdColumnName) && "languageUid" in m.fieldMappings ==>
               r.fieldMappings["languageUid"].columnName == Bool(true)
               && r.fieldMappings["languageUid"].columnName != Str(dm.languageIdColumnName.value))
  {
  }

  /** Corrected: the declared page-id and language-id columns are the ones
      mapped. */
  function SpecialColumnsIntended(dm: DataMap, m: Metadata): (r: Metadata)
    ensures r == m.(fieldMappings := r.fieldMappings)
    ensures r.fieldMappings.Keys == m.fieldMappings.Keys
    ensures forall k :: k in m.fieldMappings && k != "pid" && k != "languageUid" ==>
              r.fieldMappings[k] == m.fieldMappings[k]
    ensures "pid" in m.fieldMappings ==>
              r.fieldMappings["pid"] == if Truthy(dm.pageIdColumnName)
                                        then IntegerField("pid", Str(dm.pageIdColumnName.value))
                                        else m.fieldMappings["pid"]
    ensures "languageUid" in m.fieldMappings ==>
              r.fieldMappings["languageUid"] == if Truthy(dm.languageIdColumnName)
                                                then IntegerField("languageUid", Str(dm.languageIdColumnName.value))
                                                else m.fieldMappings["languageUid"]
  {
    var withPid :=
      if Truthy(dm.pageIdColumnName) && "pid" in m.fieldMappings
      then m.(fieldMappings := m.fieldMappings["pid" := IntegerField("pid", Str(dm.pageIdColumnName.value))])
      else m;
    if Truthy(dm.languageIdColumnName) && "languageUid" in withPid.fieldMappings
    then withPid.(fieldMappings :=
           withPid.fieldMappings["languageUid" := IntegerField("languageUid", Str(dm.languageIdColumnName.value))])
    else withPid
  }

  /** The two differ in the column name of a re-mapped `pid` or
      `languageUid` and in nothing else. */
  lemma SpecialColumnsDifferOnlyInColumnName(dm: DataMap, m: Metadata)
    ensures var written := SpecialColumns(dm, m);
            var intended := SpecialColumnsIntended(dm, m);
            written.fieldMappings.Keys == intended.fieldMappings.Keys
            && written == intended.(fieldMappings := written.fieldMappings)
            && forall k :: k in written.fieldMappings ==>
                 written.fieldMappings[k] ==
                 intended.fieldMappings[k].(columnName := written.fieldMappings[k].columnName)
  {
  }

  // ---------------------------------------------------------------------------
  // `mapManyToOne(array(..., 'joinColumns' => array(array(...), 'cascade' => ...)))`:
  // the closing parenthesis of `joinColumns` comes after `cascade`.

  /** As written, `cascade` is an entry of `joinColumns` next to the one
      join column, and the association itself cascades nothing. */
  lemma HasOneCascadeInsideJoinColumns(cm: ColumnMap, className: string, svc: MetadataService)
    ensures var a := ManyToOneFor(cm, className, svc);
            a.cascade == []
            && a.joinColumns.Keys == {IntKey(0), StrKey("cascade")}
            && a.joinColumns[StrKey("cascade")] == StringList(["persist"])
  {
  }

  /** Corrected: exactly one join column, from this property's column to
      the parent table's field, and persist cascades. */
  function ManyToOneIntended(cm: ColumnMap, className: string, svc: MetadataService): (a: AssociationMapping)
    ensures a.fieldName == cm.propertyName
    ensures a.targetEntity == svc.getTargetEntity(className, cm.propertyName)
    ensures a.joinColumns.Keys == {IntKey(0)}
    ensures a.joinColumns[IntKey(0)] == JoinColumn(cm.columnName, cm.parentTableFieldName)
    ensures a.cascade == ["persist"]
  {
    ManyToOne(cm.propertyName,
              svc.getTargetEntity(className, cm.propertyName),
              map[IntKey(0) := JoinColumn(cm.columnName, cm.parentTableFieldName)],
              ["persist"])
  }

  /** The written mapping is the intended one with its `cascade` moved into
      `joinColumns`. */
  lemma HasOneDiffersOnlyInCascadePlacement(cm: ColumnMap, className: string, svc: MetadataService)
    ensures var intended := ManyToOneIntended(cm, className, svc);
            ManyToOneFor(cm, className, svc) ==
            intended.(joinColumns := intended.joinColumns[StrKey("cascade") := StringList(intended.cascade)],
                      cascade := [])
  {
  }
}
