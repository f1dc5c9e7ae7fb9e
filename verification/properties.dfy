/** What the translation promises, stated over the functions of
    `Typo3TcaMetadataListener` and proved from them. */
module ListenerProperties {
  import opened Php
  import opened Extbase
  import opened Doctrine
  import opened Typo3TcaMetadataListener

  /** `n` is the name of a non-static property in `ps`. */
  predicate Declared(ps: seq<ReflectedProperty>, n: string)
  {
    exists i :: 0 <= i < |ps| && ps[i].name == n && !ps[i].isStatic
  }

  /** The loop gives `n` a new mapping: `n` is a declared instance property
      that the data map persists and that has no mapping yet. */
  predicate NewlyMapped(ps: seq<ReflectedProperty>, dm: DataMap, m: Metadata, n: string)
  {
    Declared(ps, n) && dm.isPersistableProperty(n)
    && n !in m.fieldMappings && n !in m.associationMappings
  }

  /** The instance properties of `ps`, in order. */
  function InstanceProperties(ps: seq<ReflectedProperty>): (r: seq<ReflectedProperty>)
    ensures |r| <= |ps|
    ensures forall i :: 0 <= i < |r| ==> !r[i].isStatic
  {
    if ps == [] then []
    else (if ps[0].isStatic then [] else [ps[0]]) + InstanceProperties(ps[1..])
  }

  lemma DeclaredCons(ps: seq<ReflectedProperty>, n: string)
    requires ps != []
    ensures Declared(ps, n) <==> (ps[0].name == n && !ps[0].isStatic) || Declared(ps[1..], n)
  {
    if Declared(ps[1..], n) {
      var i :| 0 <= i < |ps[1..]| && ps[1..][i].name == n && !ps[1..][i].isStatic;
      assert ps[i + 1] == ps[1..][i];
    }
    if Declared(ps, n) && !(ps[0].name == n && !ps[0].isStatic) {
      var i :| 0 <= i < |ps| && ps[i].name == n && !ps[i].isStatic;
      assert i > 0 && ps[1..][i - 1] == ps[i];
    }
  }

  /** When every column map carries its own property's name, the loop never
      replaces a mapping that exists when it starts. */
  lemma {:induction false} LoopNeverOverwrites(ps: seq<ReflectedProperty>, dm: DataMap, svc: MetadataService, m: Metadata)
    requires ColumnMapsKeyedByProperty(dm)
    ensures var r := MapProperties(ps, dm, svc, m);
            (forall k :: k in m.fieldMappings ==> r.fieldMappings[k] == m.fieldMappings[k])
            && (forall k :: k in m.associationMappings ==> r.associationMappings[k] == m.associationMappings[k])
    decreases |ps|
  {
    if ps != [] {
      var m1 := MapProperty(ps[0], dm, svc, m);
      LoopNeverOverwrites(ps[1..], dm, svc, m1);
      forall k | k in m.fieldMappings || k in m.associationMappings
        ensures AgreeAt(m, m1, k)
      {
        if k == ps[0].name {
          assert Skipped(ps[0], dm, m);
        }
      }
    }
  }

  /** The loop, name by name (column maps keyed by their own property): a
      name ends up with a field mapping exactly when it had one or is newly
      mapped with a column without relation, and with an association exactly
      when it had one or is newly mapped with a has-one column; a new field
      is that column's field and a new association that column's many-to-one. */
  lemma {:induction false} LoopMapsEachName(ps: seq<ReflectedProperty>, dm: DataMap, svc: MetadataService, m: Metadata, n: string)
    requires ColumnMapsKeyedByProperty(dm)
    ensures var r := MapProperties(ps, dm, svc, m);
            var kind := dm.columnMap(n).typeOfRelation;
            (n in r.fieldMappings <==> n in m.fieldMappings || (NewlyMapped(ps, dm, m, n) && kind == RelationNone))
            && (n in r.associationMappings <==>
                  n in m.associationMappings || (NewlyMapped(ps, dm, m, n) && kind == RelationHasOne))
            && (NewlyMapped(ps, dm, m, n) && kind == RelationNone ==>
                  r.fieldMappings[n] == FieldFor(dm.columnMap(n), dm, svc))
            && (NewlyMapped(ps, dm, m, n) && kind == RelationHasOne ==>
                  r.associationMappings[n] == ManyToOneFor(dm.columnMap(n), m.name, svc))
    decreases |ps|
  {
    if ps == [] {
      assert !Declared(ps, n);
    } else {
      var p := ps[0];
      var m1 := MapProperty(p, dm, svc, m);
      LoopMapsEachName(ps[1..], dm, svc, m1, n);
      LoopNeverOverwrites(ps[1..], dm, svc, m1);
      DeclaredCons(ps, n);
      if p.name != n {
        assert AgreeAt(m, m1, n);
      } else if Skipped(p, dm, m) {
        assert m1 == m;
      } else {
        assert NewlyMapped(ps, dm, m, n);
      }
    }
  }

  /** Static properties play no part in the loop. */
  lemma {:induction false} LoopIgnoresStatics(ps: seq<ReflectedProperty>, dm: DataMap, svc: MetadataService, m: Metadata)
    ensures MapProperties(ps, dm, svc, m) == MapProperties(InstanceProperties(ps), dm, svc, m)
    decreases |ps|
  {
    if ps != [] {
      var m1 := MapProperty(ps[0], dm, svc, m);
      LoopIgnoresStatics(ps[1..], dm, svc, m1);
      if ps[0].isStatic {
        assert m1 == m;
        assert [] + InstanceProperties(ps[1..]) == InstanceProperties(ps[1..]);
        assert MapProperties(ps, dm, svc, m) == MapProperties(ps[1..], dm, svc, m1);
      } else {
        var rest := InstanceProperties(ps[1..]);
        assert ([ps[0]] + rest)[1..] == rest;
      }
    }
  }

  /** What one call does to the mappings a class already has, provided its
      column maps are keyed by their own property: every association mapping
      is kept; the abstract domain object keeps every field but `uid`; any
      other class keeps every field but `pid` and `languageUid`, and for an
      entity with a data map every existing field ends as the re-mapping of
      `pid` and `languageUid` left it. */
  lemma TranslationKeepsExistingMappings(m: Metadata, refl: ClassReflection, svc: MetadataService)
    requires svc.getDataMap(m.name).Some? ==> ColumnMapsKeyedByProperty(svc.getDataMap(m.name).value)
    ensures var r := Typo3Metadata(m, refl, svc);
            (forall k :: k in m.associationMappings ==> r.associationMappings[k] == m.associationMappings[k])
            && (m.name == AbstractDomainObjectClass ==>
                  forall k :: k in m.fieldMappings && k != "uid" ==> r.fieldMappings[k] == m.fieldMappings[k])
            && (m.name != AbstractDomainObjectClass ==>
                  forall k :: k in m.fieldMappings && k != "pid" && k != "languageUid" ==>
                    r.fieldMappings[k] == m.fieldMappings[k])
    ensures var r := Typo3Metadata(m, refl, svc);
            m.name != AbstractDomainObjectClass && refl.isEntitySubclass && svc.getDataMap(m.name).Some? ==>
              forall k :: k in m.fieldMappings ==>
                r.fieldMappings[k] == SpecialColumns(svc.getDataMap(m.name).value, m).fieldMappings[k]
  {
    if m.name != AbstractDomainObjectClass && refl.isEntitySubclass && svc.getDataMap(m.name).Some? {
      var dm := svc.getDataMap(m.name).value;
      assert SpecialColumns(dm, PrimaryTable(dm, m)).fieldMappings == SpecialColumns(dm, m).fieldMappings;
      LoopNeverOverwrites(refl.properties, dm, svc, SpecialColumns(dm, PrimaryTable(dm, m)));
    }
  }

  /** What translating an entity class does to a name that has no mapping
      yet: a declared, persistable property with a column without relation
      becomes a field (its column, and the type the service gives for that
      column of the data map's table); one with a has-one column becomes a
      many-to-one association; every other name stays unmapped. */
  lemma TranslationMapsNewName(m: Metadata, refl: ClassReflection, svc: MetadataService, n: string)
    requires m.name != AbstractDomainObjectClass && refl.isEntitySubclass
    requires svc.getDataMap(m.name).Some?
    requires ColumnMapsKeyedByProperty(svc.getDataMap(m.name).value)
    requires n !in m.fieldMappings && n !in m.associationMappings
    ensures var dm := svc.getDataMap(m.name).value;
            var r := Typo3Metadata(m, refl, svc);
            var cm := dm.columnMap(n);
            var mapped := Declared(refl.properties, n) && dm.isPersistableProperty(n);
            (n in r.fieldMappings <==> mapped && cm.typeOfRelation == RelationNone)
            && (n in r.associationMappings <==> mapped && cm.typeOfRelation == RelationHasOne)
            && (n in r.fieldMappings ==>
                  r.fieldMappings[n] ==
                  FieldMapping(n, Str(cm.columnName), svc.getTCAColumnType(dm.tableName, cm.columnName), false))
            && (n in r.associationMappings ==> r.associationMappings[n] == ManyToOneFor(cm, m.name, svc))
  {
    var dm := svc.getDataMap(m.name).value;
    var start := SpecialColumns(dm, PrimaryTable(dm, m));
    LoopMapsEachName(refl.properties, dm, svc, start, n);
  }

  /** A worked case: entity class `Foo` whose data map names table
      `foo_items` and whose one property `title` is a plain `title` column of
      type `string`. */
  lemma FooTitleExample()
    ensures var dm := DataMap("foo_items", None, None,
                              n => n == "title",
                              n => ColumnMap(RelationNone, n, n, ""));
            var svc := MetadataService(c => if c == "Foo" then Some(dm) else None,
                                       (t, c) => if t == "foo_items" && c == "title" then "string" else "",
                                       (c, p) => "");
            var m := Metadata("Foo", "Foo", false, "Foo", GeneratorNone, map[], map[]);
            var r := Typo3Metadata(m, ClassReflection(true, [ReflectedProperty("title", false)]), svc);
            r.tableName == "foo_items"
            && r.fieldMappings == map["title" := FieldMapping("title", Str("title"), "string", false)]
            && r.associationMappings == map[]
  {
  }
}
