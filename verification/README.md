# TYPO3 TCA metadata listener, modelled in Dafny

`Tx_Doctrine2_Mapping_TYPO3TCAMetadataListener` is a Doctrine event
subscriber. On `loadClassMetadata` it fills the class metadata of an Extbase
domain class from the class's Extbase data map (built from TYPO3's TCA):

- For `Tx_Doctrine2_DomainObject_AbstractDomainObject` it marks the metadata
  as a mapped superclass, maps `uid` as an integer identifier and selects the
  AUTO id generator.
- For a strict subclass of `Tx_Doctrine2_DomainObject_AbstractEntity` with a
  data map, it does four things:
  - sets the primary table to the data map's table;
  - re-maps `pid` and `languageUid` as integers when the data map declares
    those columns;
  - adds a field mapping for each persistable instance property with a
    column without relation;
  - adds a many-to-one association for each one with a has-one column.
- Any other class is left untouched.
- Without an injected metadata service the handler throws.

The project has six modules:

- `Php` (`php.dfy`): `null`/value options, PHP truthiness of a string and
  ASCII `strtolower`.
- `Extbase` (`extbase.dfy`): `DataMap`, `ColumnMap`, the relation kinds and
  the metadata service. The service's queries (`getDataMap`,
  `getTCAColumnType`, `getTargetEntity`) and the data map's
  `isPersistableProperty` and `getColumnMap` are function-valued fields.
  They stay uninterpreted, so every result holds for any answers they give.
- `Doctrine` (`doctrine.dfy`): the `ClassMetadataInfo` object, with its
  fields `name`, `shortName`, `isMappedSuperclass`, `tableName`,
  `idGenerator`, `fieldMappings` and `associationMappings`. The class
  function `Value()` returns the same state as a `Metadata` datatype.
- `Typo3TcaMetadataListener` (`listener.dfy`): the translation as pure
  functions on `Metadata` values (`Typo3Metadata` and its parts). The
  `Listener` class performs it in place, statement by statement, and each of
  its methods is proved to leave the metadata equal to those functions.
  The property loop (`MapReflectedProperties`) carries the invariant that
  what remains of the loop leads to the same final value.
- `ListenerProperties` (`properties.dfy`): lemmas about the translation.
- `Findings` (`findings.dfy`): the two defects below.

Reflection is not modelled. The caller supplies what it reports as a
`ClassReflection`: whether the class is a strict subclass of
`AbstractEntity`, and its properties as `(name, isStatic)` pairs in order.
The metadata's `shortName` is what `reflClass->getShortname()` reports.

Behaviour that follows the code rather than the prose description of the
system:

- The lower-casing at lines 71-72 has no lasting effect. The next statement
  (line 75) replaces the table name with the data map's.
  `PrimaryTable` proves the final name is always the data map's table.
- `pid` and `languageUid` are re-mapped to the column named by the boolean
  `true`. `&&` binds tighter than `=` at lines 79 and 87.
- Inside the loop, the skip test uses the reflected property name (lines
  101-102). The new mapping is stored under the column map's
  `propertyName` (lines 112 and 119). The no-overwrite lemmas therefore
  assume that the column map of every persistable property carries that
  property's own name (`Extbase.ColumnMapsKeyedByProperty`). That holds for data maps that
  Extbase builds.
- In the has-one association, `cascade` sits inside `joinColumns`
  (lines 121-125). The association itself has no `cascade` key.

## Model

| member | source | states |
|---|---|---|
| `Typo3TcaMetadataListener.Listener.constructor` | Classes/Mapping/TYPO3TCAMetadataListener.php:16-19 | a new listener has no metadata service |
| `Typo3TcaMetadataListener.Listener.InjectMetadataService` | Classes/Mapping/TYPO3TCAMetadataListener.php:21-28 | afterwards the listener holds exactly the given service |
| `Typo3TcaMetadataListener.Listener.LoadClassMetadata` | Classes/Mapping/TYPO3TCAMetadataListener.php:30-38 | fails with the runtime error exactly when no service is set, and then changes no field of the metadata; otherwise the metadata becomes `Typo3Metadata` of its old value |
| `Typo3TcaMetadataListener.Listener.LoadAbstractDomainObject` | Classes/Mapping/TYPO3TCAMetadataListener.php:40-51 | the metadata becomes a mapped superclass with `uid`→`uid` mapped as an integer id and the AUTO generator, all else unchanged |
| `Typo3TcaMetadataListener.Listener.AddTypo3Metadata` | Classes/Mapping/TYPO3TCAMetadataListener.php:53-129 | the in-place translation, property loop included, leaves the metadata equal to `Typo3Metadata` of its old value |
| `Typo3TcaMetadataListener.Listener.MapReflectedProperties` | Classes/Mapping/TYPO3TCAMetadataListener.php:95-128 | the in-place `foreach`, each iteration seeing the earlier insertions, leaves the metadata equal to `MapProperties` of its old value |
| `Typo3TcaMetadataListener.Listener.SubscribedEvents` | Classes/Mapping/TYPO3TCAMetadataListener.php:131-134 | the listener subscribes to the `loadClassMetadata` event and to no other |
| `Typo3TcaMetadataListener.Typo3Metadata` | Classes/Mapping/TYPO3TCAMetadataListener.php:53-129 | the class name and short name are kept and no mapping name is dropped. For the abstract domain object the result is a mapped superclass with AUTO generation and `uid` as an integer id. It has exactly one new field name, `uid`, and the table, the associations and all other fields are unchanged. A class that is not an entity subclass, or that has no data map, is returned unchanged. An entity with a data map gets the data map's table name and keeps its superclass flag and id generator |
| `Typo3TcaMetadataListener.PrimaryTable` | Classes/Mapping/TYPO3TCAMetadataListener.php:71-75 | the conditional lower-casing is overwritten. The result is the input with the table name set to the data map's table |
| `Typo3TcaMetadataListener.SpecialColumns` | Classes/Mapping/TYPO3TCAMetadataListener.php:79-93 | only field mappings change, and no name is added or removed. An existing `pid` becomes an integer field on column `true` exactly when the page-id column is truthy (not null, `""` or `"0"`), and the same holds for `languageUid` and the language-id column. Every other field is unchanged |
| `Typo3TcaMetadataListener.MapProperty` | Classes/Mapping/TYPO3TCAMetadataListener.php:98-127 | a static, non-persistable or already mapped property changes nothing. Otherwise only the name `columnMap.propertyName` can change. A column without relation adds a field with that column and the service's type for it, and associations stay the same. A has-one column adds a many-to-one association with the service's target entity and join column 0 pairing the column with the parent-table field, and fields stay the same. Any other relation changes nothing |
| `Typo3TcaMetadataListener.MapProperties` | Classes/Mapping/TYPO3TCAMetadataListener.php:95-128 | the loop changes only the two mapping dictionaries and never removes a name |
| `Doctrine.ClassMetadataInfo.MapField` | Classes/Mapping/TYPO3TCAMetadataListener.php:111-115 | `mapField` as insertion of the mapping under its field name, nothing else changed |
| `Doctrine.ClassMetadataInfo.MapManyToOne` | Classes/Mapping/TYPO3TCAMetadataListener.php:118-125 | `mapManyToOne` as insertion of the association under its field name, nothing else changed |
| `Doctrine.ClassMetadataInfo.SetPrimaryTable` | Classes/Mapping/TYPO3TCAMetadataListener.php:75 | `setPrimaryTable` replaces the table name, nothing else changed |
| `Doctrine.ClassMetadataInfo.SetIdGeneratorType` | Classes/Mapping/TYPO3TCAMetadataListener.php:50 | `setIdGeneratorType` replaces the generator, nothing else changed |
| `ListenerProperties.LoopNeverOverwrites` | Classes/Mapping/TYPO3TCAMetadataListener.php:98-127 | when column maps are keyed by their own property, every field and association mapping present before the loop is unchanged after it |
| `ListenerProperties.LoopMapsEachName` | Classes/Mapping/TYPO3TCAMetadataListener.php:98-127 | when column maps are keyed by their own property, per name, both directions. A name has a field after the loop iff it had one before, or it is a declared, persistable, unmapped instance property with a column without relation. A name has an association after the loop iff it had one before, or it is such a property with a has-one column. The new entries are that column's field and that column's many-to-one |
| `ListenerProperties.LoopIgnoresStatics` | Classes/Mapping/TYPO3TCAMetadataListener.php:99 | running the loop over all properties gives the same metadata as running it over the instance properties alone |
| `ListenerProperties.TranslationKeepsExistingMappings` | Classes/Mapping/TYPO3TCAMetadataListener.php:53-129 | when column maps are keyed by their own property, a call keeps every association mapping. The abstract domain object keeps every field but `uid`. Any other class keeps every field but `pid` and `languageUid`. For an entity with a data map, every field that existed ends with the value the `pid`/`languageUid` re-mapping (`SpecialColumns`) gave it |
| `ListenerProperties.TranslationMapsNewName` | Classes/Mapping/TYPO3TCAMetadataListener.php:95-127 | for an entity with a data map whose column maps are keyed by their own property, and a name not yet mapped: the name becomes a field, with its column and the service's `getTCAColumnType(table, column)`, iff it is a declared, persistable instance property without relation. It becomes the column's many-to-one association iff it is such a property with a has-one column. Otherwise it stays unmapped |
| `ListenerProperties.FooTitleExample` | Classes/Mapping/TYPO3TCAMetadataListener.php:62-116 | entity `Foo` with data map table `foo_items` and a plain `title` column of type `string` ends with table `foo_items` and exactly the field `title`→`title` of type `string` |
| `Findings.SpecialColumnNameIsBoolean` | Classes/Mapping/TYPO3TCAMetadataListener.php:79-93 | as written, a re-mapped `pid` or `languageUid` gets column name `true`. That is never the declared column |
| `Findings.SpecialColumnsIntended` | Classes/Mapping/TYPO3TCAMetadataListener.php:79-93 | corrected: the re-mapped `pid` and `languageUid` use the data map's declared column names. All else is as in `SpecialColumns` |
| `Findings.SpecialColumnsDifferOnlyInColumnName` | Classes/Mapping/TYPO3TCAMetadataListener.php:79-93 | the as-written and corrected results differ only in the column name of the re-mapped fields |
| `Findings.HasOneCascadeInsideJoinColumns` | Classes/Mapping/TYPO3TCAMetadataListener.php:118-125 | as written, `joinColumns` has two entries, the join column at 0 and `cascade`→`['persist']`. The association's own cascade is empty |
| `Findings.ManyToOneIntended` | Classes/Mapping/TYPO3TCAMetadataListener.php:118-125 | corrected: exactly one join column (column → parent-table field), cascade `['persist']`, the service's target entity |
| `Findings.HasOneDiffersOnlyInCascadePlacement` | Classes/Mapping/TYPO3TCAMetadataListener.php:118-125 | the as-written association is the corrected one with its cascade moved into `joinColumns` |

## Findings

The listener (`Listener.AddTypo3Metadata` and `Typo3Metadata`) keeps the
code's behaviour as written. The corrected definitions sit beside it in
`Findings`, each with its intended property proved.

| source | as written | input that shows it | evidently intended | confidence | as-written member | corrected member |
|---|---|---|---|---|---|---|
| Classes/Mapping/TYPO3TCAMetadataListener.php:79-93 | `$pidColumnName = getPageIdColumnName() && isset(...)` assigns the boolean result, so `pid` (and `languageUid`) is mapped to column `true` | a data map with page-id column `"pid"` and metadata that already maps `pid` | map `pid` to the declared page-id column (and `languageUid` to the language-id column) | medium, not executed | `Findings.SpecialColumnNameIsBoolean` | `Findings.SpecialColumnsIntended` |
| Classes/Mapping/TYPO3TCAMetadataListener.php:118-125 | the parenthesis closing `joinColumns` comes after `'cascade' => array('persist')`, so `cascade` is an entry of `joinColumns` and the association cascades nothing | any persistable property whose column map has relation has-one | one join column and `cascade => ['persist']` on the association | high, not executed | `Findings.HasOneCascadeInsideJoinColumns` | `Findings.ManyToOneIntended` |

## Left out

- PHP reflection (`ReflectionClass::getProperties`, `getShortname`) and `is_subclass_of` are not modelled. Their answers are inputs: `ClassReflection` and the metadata's `shortName`.
- Doctrine's own logic behind `mapField`, `mapManyToOne`, `setPrimaryTable` and `setIdGeneratorType` is not modelled. This covers validation, exceptions on invalid or duplicate mappings, default completion, the `columnNames`/`fieldNames` side tables and backtick quoting. Each is modelled as the plain insertion or assignment it performs on the visible state.
- The logic of Extbase's `DataMap`/`ColumnMap` and of the metadata service (TCA lookup, type and target resolution) is foreign code. It is left uninterpreted as function-valued fields.
- The column-map lookup is total. The case where `getColumnMap` returns null for a persistable property (a PHP fatal error at line 109) is not modelled.
- Event plumbing is not modelled: `LoadClassMetadataEventArgs`, its dispatch, and subscriber registration. The handler takes the event's metadata object directly.
- The comparisons at lines 57 and 71 are modelled as string equality. PHP's loose `==` also equates distinct numeric strings, such as `"1e1"` and `"10"`.
- `StrToLower` lowers ASCII letters only. Locale-dependent case mapping is not modelled. The lowered name is overwritten at once anyway.
- `Truthy` covers the values a column-name getter returns, a string or null, and no other PHP types.
- `Typo3TcaMetadataListener.Listener.AddTypo3Metadata` requires a service. The listener calls it only after the guard in `loadClassMetadata`. Without a service, PHP would fail at line 66 on the entity path.
- The enable-fields TODO at lines 76-77 is not implemented in the source and has no counterpart here.
