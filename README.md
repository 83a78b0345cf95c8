# OCEL 2.0 flattener and Unity Catalog path handling, in Dafny

This project models the two pieces of logic in the OCEL 2.0 → Unity Catalog importer.

**The flattener.** It turns a parsed OCEL 2.0 JSON document (the exchange format of the Object-Centric Event Log 2.0 standard) into eight flat tables:
- object_types
- event_types
- objects
- object_attributes
- object_relationships
- events
- event_attributes
- event_object_relationships

The source builds each table with nested loops that append rows to a list. Each loop is modelled as a Dafny method. Each method is proved to return exactly the rows that a recursive specification function defines. The properties are lemmas about those specification functions:
- row counts;
- document order;
- copied ids, types and times;
- `str()` of attribute values;
- the `""` default for qualifiers and the null default for attribute times;
- absent nested lists producing no rows;
- parent ids present in the parent table;
- exactly which documents build (a missing directly indexed key raises KeyError).

**The volume-path handling of `OCEL2UCImporter`.** This covers:
- `parse_uc_file_path`, a pure split-and-unpack of `/Volumes/<catalog>/<schema>/<volume>/<file_name>`;
- `set_uc_file_path`, a class method that validates its arguments and then updates five fields;
- the argument checks at the start of `download_file`.

Module layout:

| file | module | models |
|---|---|---|
| wrappers.dfy | Wrappers | `Option` for keys that may be absent, `Result`/`Outcome` for raised exceptions |
| python_str.dfy | PythonStr | Python's `str()` of an int, and its inverse |
| ocel_document.dfy | OcelDocument | the JSON document, the KeyError, `str()` of an attribute value |
| row_building.dfy | RowBuilding | the two loop shapes (outer loop over a top-level array, inner loop over a nested array) as specification functions, with their lemmas |
| ocel_tables.dfy | OcelTables | row types and the eight table specification functions |
| ocel_properties.dfy | OcelProperties | the properties of the tables |
| ocel_flattener.dfy | OcelFlattener | the eight builder loops as methods, and the whole run |
| uc_path.dfy | UcPath | `split('/')`, `parse_uc_file_path`, the built path, round trips |
| uc_importer.dfy | UcImporter | class `Importer`: `set_uc_file_path`, `download_file`'s argument checks |

Modelling notes:
- Every key that the source reads with `d['k']` is an `Option` in the document. A missing key is then a value the model can represent, and the builders fail with `MissingKey(k)` at the first such key in traversal order. Keys the source reads with `.get` use that call's default: `attributes`/`relationships` on objects and events default to `[]`, `qualifier` to `""`, and an attribute `time` to null.
- object_types and event_types share one row type and one loop (`BuildTypeRows`). The two tables differ only in the top-level key and in the name of the first column. object_relationships and event_object_relationships share `RelationshipRow`. Its `parentId` column is `source_object_id` in one table and `event_id` in the other.
- `utils/ocel2_uc_importer.py:178-379` repeats the eight builders of `utils/write_ocel_to_uc_schema.py:37-238` line for line. The same members model both copies; the table below cites the latter.
- The source's orchestrators call builders by names that do not exist: `_create_and_load_objects_table` and `_create_and_load_object_attributes_table`. The builders are defined as `create_and_load_objects_table` and `_create_and_load_attributes_table`. `WriteOcelJsonToSchema` models the intended run instead: the eight builders in their fixed order, with each table saved as soon as it is built. The run walks the builders through the index `k` of `TableNames`. A failure stops the run, and the tables already saved stay saved.
- `parse_uc_file_path` is declared without `self` and is called as a bare name, so in Python the `file_path` branch of `set_uc_file_path` cannot reach it. The model uses the intended behaviour: a module-level function `UcPath.ParseUcFilePath`.

## Model

| member | source | states |
|---|---|---|
| `PythonStr.NatToDecimal` | utils/write_ocel_to_uc_schema.py:125 | the rendering of a natural number is a non-empty string of decimal digits with no leading zero |
| `PythonStr.IntToDecimal` | utils/write_ocel_to_uc_schema.py:125 | `str()` of an int is non-empty, starts with `-` exactly when the int is negative, and is otherwise decimal digits |
| `PythonStr.NatToDecimalRoundTrip` | utils/write_ocel_to_uc_schema.py:125 | reading the digits of a rendered natural number back gives the number |
| `PythonStr.IntToDecimalRoundTrip` | utils/write_ocel_to_uc_schema.py:125 | `str()` of any int (minus sign for negatives) parses back to the same int |
| `PythonStr.IntToDecimalInjective` | utils/write_ocel_to_uc_schema.py:125 | distinct ints never render to the same text |
| `OcelDocument.Stringify` | utils/write_ocel_to_uc_schema.py:125 | `str()` stores a string value unchanged and a boolean as `True`/`False` |
| `OcelDocument.StringifyIntInjective` | utils/write_ocel_to_uc_schema.py:125 | the stored text of an int attribute determines the int |
| `OcelDocument.StringifyBoolIsNotInt` | utils/write_ocel_to_uc_schema.py:203 | a boolean value never renders like an int value |
| `RowBuilding.FlatMap` | utils/write_ocel_to_uc_schema.py:118-127 | an outer loop succeeds exactly when every top-level element builds its rows |
| `RowBuilding.MapWith` | utils/write_ocel_to_uc_schema.py:121-127 | an inner loop gives one row per nested element, in order, and succeeds exactly when every nested element builds |
| `RowBuilding.FlatMapStopsAt` | utils/write_ocel_to_uc_schema.py:119-121 | once an element fails after a successful prefix, the whole table fails with that element's KeyError |
| `RowBuilding.MapWithStopsAt` | utils/write_ocel_to_uc_schema.py:121-125 | a nested element that fails after a successful prefix fails its parent with its KeyError |
| `RowBuilding.FlatMapFirstError` | utils/write_ocel_to_uc_schema.py:119-127 | a failed table reports the error of the first failing element, and every element before it builds |
| `RowBuilding.FlatMapLength` | utils/write_ocel_to_uc_schema.py:118-127 | a table has as many rows as the sum of what its elements contribute |
| `RowBuilding.FlatMapMember` | utils/write_ocel_to_uc_schema.py:119-124 | every row of a table was contributed by some element of the top-level array |
| `RowBuilding.FlatMapSplit` | utils/write_ocel_to_uc_schema.py:150-157 | order is preserved: the rows of the first k elements precede the rows of the rest |
| `RowBuilding.FlatMapSingletons` | utils/write_ocel_to_uc_schema.py:101-106 | when each element gives one row, row i comes from element i |
| `OcelTables.TypeAttributeRow` | utils/write_ocel_to_uc_schema.py:46-50 | a declared attribute gives a row exactly when it has `name` and `type`; a missing `name` is reported before a missing `type`; the row carries the declaring type's name, the attribute's name and its type |
| `OcelTables.ObjectAttributeRowOf` | utils/write_ocel_to_uc_schema.py:122-127 | an object attribute gives a row exactly when it has `name` and `value` (name reported first); the row holds the object id, the name, `str()` of the value (a string value unchanged) and the `time`, or null when absent |
| `OcelTables.EventAttributeRowOf` | utils/write_ocel_to_uc_schema.py:200-204 | an event attribute gives a row exactly when it has `name` and `value` (name reported first); the row holds the event id, the name and `str()` of the value, and no time |
| `OcelTables.RelationshipRowOf` | utils/write_ocel_to_uc_schema.py:153-157 | a relationship gives a row exactly when it has `objectId`, else KeyError `objectId`; the row holds the parent id, the target id, and the qualifier or `""` when it is absent |
| `OcelProperties.AllTablesBuildIffWellFormed` | utils/write_ocel_to_uc_schema.py:37-238 | all eight tables build exactly when every required key is present: the top-level arrays, `name`, `attributes` of types, `id`, `type`, `time`, `value` and `objectId` |
| `OcelProperties.TypeRowsOfDeclarations` | utils/write_ocel_to_uc_schema.py:43-50 | a type contributes one row per declared attribute, in order, each carrying the type's name, the attribute's name and its type |
| `OcelProperties.TypeTableRows` | utils/write_ocel_to_uc_schema.py:72-80 | a type table has as many rows as the sum of the types' attribute-list lengths, and every row names a type of the document |
| `OcelProperties.ObjectsTableRows` | utils/write_ocel_to_uc_schema.py:101-106 | objects has one row per object, in document order, with `id` and `type` copied |
| `OcelProperties.EventsTableRows` | utils/write_ocel_to_uc_schema.py:178-184 | events has one row per event, in document order, with `id`, `type` and `time` copied |
| `OcelProperties.ObjectAttributeRowsOfAttributes` | utils/write_ocel_to_uc_schema.py:119-127 | each object attribute row holds the object's id, the attribute's name, `str()` of its value, and its time or null; an object with no `attributes` key gives no rows |
| `OcelProperties.EventAttributeRowsOfAttributes` | utils/write_ocel_to_uc_schema.py:197-204 | each event attribute row holds the event's id, the name and `str()` of the value; an event with no `attributes` key gives no rows |
| `OcelProperties.ObjectRelationshipRowsOfRelationships` | utils/write_ocel_to_uc_schema.py:150-157 | each object relationship row holds the source id, the target `objectId`, and the qualifier or `""` when it is absent; no `relationships` key gives no rows |
| `OcelProperties.EventRelationshipRowsOfRelationships` | utils/write_ocel_to_uc_schema.py:226-233 | the same for event-to-object relationships |
| `OcelProperties.ObjectAttributesTableCount` | utils/write_ocel_to_uc_schema.py:118-127 | object_attributes has exactly as many rows as the objects' attribute lists together |
| `OcelProperties.ObjectRelationshipsTableCount` | utils/write_ocel_to_uc_schema.py:149-157 | object_relationships has exactly as many rows as the objects' relationship lists together |
| `OcelProperties.EventAttributesTableCount` | utils/write_ocel_to_uc_schema.py:196-204 | event_attributes has exactly as many rows as the events' attribute lists together |
| `OcelProperties.EventObjectRelationshipsTableCount` | utils/write_ocel_to_uc_schema.py:225-233 | event_object_relationships has exactly as many rows as the events' relationship lists together |
| `OcelProperties.ObjectAttributeParentsExist` | utils/write_ocel_to_uc_schema.py:119-121 | every `object_id` in object_attributes is an `object_id` of the objects table |
| `OcelProperties.ObjectRelationshipParentsExist` | utils/write_ocel_to_uc_schema.py:150-153 | every `source_object_id` in object_relationships is an `object_id` of the objects table |
| `OcelProperties.EventAttributeParentsExist` | utils/write_ocel_to_uc_schema.py:197-199 | every `event_id` in event_attributes is an `event_id` of the events table |
| `OcelProperties.EventRelationshipParentsExist` | utils/write_ocel_to_uc_schema.py:226-229 | every `event_id` in event_object_relationships is an `event_id` of the events table |
| `OcelProperties.MinimalDocumentTables` | utils/write_ocel_to_uc_schema.py:96-106 | a document with one object, one event and no types gives one objects row, one events row, and six empty tables |
| `OcelFlattener.BuildTypeRows` | utils/write_ocel_to_uc_schema.py:42-50 | the nested type loop returns exactly the rows of the type table, or the first missing key |
| `OcelFlattener.CreateObjectTypesRows` | utils/write_ocel_to_uc_schema.py:37-50 | builds object_types from `objectTypes` |
| `OcelFlattener.CreateEventTypesRows` | utils/write_ocel_to_uc_schema.py:67-80 | builds event_types from `eventTypes` |
| `OcelFlattener.CreateObjectsRows` | utils/write_ocel_to_uc_schema.py:96-106 | the objects loop returns exactly the objects table |
| `OcelFlattener.CreateObjectAttributesRows` | utils/write_ocel_to_uc_schema.py:113-127 | the nested object-attribute loop returns exactly the object_attributes table |
| `OcelFlattener.CreateObjectRelationshipsRows` | utils/write_ocel_to_uc_schema.py:144-157 | the nested object-relationship loop returns exactly the object_relationships table |
| `OcelFlattener.CreateEventsRows` | utils/write_ocel_to_uc_schema.py:173-184 | the events loop returns exactly the events table |
| `OcelFlattener.CreateEventAttributesRows` | utils/write_ocel_to_uc_schema.py:191-204 | the nested event-attribute loop returns exactly the event_attributes table |
| `OcelFlattener.CreateEventObjectRelationshipsRows` | utils/write_ocel_to_uc_schema.py:220-233 | the nested event-relationship loop returns exactly the event_object_relationships table |
| `OcelFlattener.TableAt` | utils/write_ocel_to_uc_schema.py:253-260 | the k-th table of a run is the table named `TableNames[k]`, in the fixed order |
| `OcelFlattener.BuildTable` | utils/write_ocel_to_uc_schema.py:253-260 | running the k-th builder gives the k-th table |
| `OcelFlattener.RunBuildsIffWellFormed` | utils/write_ocel_to_uc_schema.py:253-260 | every builder of the run succeeds exactly when the document is well formed |
| `OcelFlattener.WriteOcelJsonToSchema` | utils/write_ocel_to_uc_schema.py:240-260 | the saved tables are a prefix of the fixed order, each equal to its specification; a failure names the KeyError of the first failing builder; all eight are saved exactly when the document is well formed |
| `UcPath.Split` | utils/ocel2_uc_importer.py:51 | `split('/')` always yields at least one piece |
| `UcPath.SplitCount` | utils/ocel2_uc_importer.py:51 | `split('/')` yields one piece more than there are separators |
| `UcPath.SplitPiecesHaveNoSep` | utils/ocel2_uc_importer.py:51 | no piece of a split contains a separator |
| `UcPath.JoinSplit` | utils/ocel2_uc_importer.py:51 | joining the pieces with `/` gives back the string |
| `UcPath.SplitNoSep` | utils/ocel2_uc_importer.py:51 | a string without `/` splits into itself alone |
| `UcPath.SplitAtSep` | utils/ocel2_uc_importer.py:51 | splitting `a + "/" + b` gives the pieces of `a` followed by those of `b` |
| `UcPath.ParseUcFilePath` | utils/ocel2_uc_importer.py:38-59 | parsing succeeds exactly when `split('/')` gives six pieces, and then yields pieces 2 to 5 as catalog, schema, volume and file name; otherwise it raises the invalid-format ValueError |
| `UcPath.BuildUcFilePath` | utils/ocel2_uc_importer.py:120 | the built path is `/Volumes/` followed by the four components joined with `/` |
| `UcPath.ParseOkIffFiveSeparators` | utils/ocel2_uc_importer.py:50-59 | parsing succeeds exactly when the path has five separators (six pieces); otherwise it raises ValueError |
| `UcPath.ParsedComponentsHaveNoSep` | utils/ocel2_uc_importer.py:51-57 | parsed catalog, schema, volume and file name never contain `/` |
| `UcPath.ParseBuildRoundTrip` | utils/ocel2_uc_importer.py:51-56 | parsing `/Volumes/c/s/v/f` built from components without `/` gives exactly (c, s, v, f) |
| `UcPath.BuildParseRoundTrip` | utils/ocel2_uc_importer.py:120 | a parsable path under `/Volumes/` is exactly the path built from what it parses to |
| `UcPath.ParseBuildIffNoSep` | utils/ocel2_uc_importer.py:116-120 | the built path parses back to its components exactly when none of them contains `/` |
| `UcPath.ParseExample` | utils/ocel2_uc_importer.py:42 | `/Volumes/main/logistics/raw/ocel.json` parses to main, logistics, raw, ocel.json |
| `UcImporter.MissingComponentNames` | utils/ocel2_uc_importer.py:102-107 | a component is listed as missing exactly when it was not given, nothing else is listed, and the names appear in the order catalog, schema, volume, file_name |
| `UcImporter.Importer.constructor` | utils/ocel2_uc_importer.py:31-36 | a new importer has no catalog, schema, volume, file name or path |
| `UcImporter.Importer.SetUcFilePath` | utils/ocel2_uc_importer.py:61-121 | path with components, neither, a malformed path, or partial components each raise their ValueError and change no field; a path sets the fields to its parsed components and is stored verbatim; full components set the fields and the built path, which agrees with them exactly when no component contains `/` |
| `UcImporter.Importer.DownloadDestination` | utils/ocel2_uc_importer.py:128-134 | a missing `url` is rejected first; the destination is the `file_path` argument, else the configured path; with a `url` but neither path it raises the file-path-required ValueError, and it fails exactly in those two cases |

## Left out

- HTTP downloading, in all three `download_file` copies: the request, chunked writes, directory creation, file size and progress percentages. These are network and file I/O and floating point. `DownloadDestination` models only the argument checks that come before them.
- Spark: `createDataFrame`, the empty-schema fallbacks, `saveAsTable` with overwrite, and `df.count()`. A foreign library. Tables are Dafny sequences, and "saved" means appended to the run's list of written tables. Spark's behaviour on an empty row list without a schema (events, objects, event_object_relationships) is library behaviour and is not modelled. So is the `catalog.schema.table` name under which each table is saved.
- `json.load` from disk. The document is an already parsed value.
- JSON values the datatypes do not represent: float attribute values (Python's float formatting), `null`, and nested arrays or objects as attribute values. Also ids, names and types that are not strings, and a key that is present but `null` (for example `"attributes": null`, which makes the source raise TypeError).
- The orchestration as written. `write_ocel_json_to_schema` calls two builder methods that do not exist. `write_ocel2_json_to_schema` also reads an undefined `json_path` and uses `self.spark`/`self.full_schema`, which `OCEL2UCImporter` never sets. Only the intended order of the eight builders is modelled.
- The `__main__`/argparse blocks. They are command-line plumbing that calls undefined names.
- All `print` logging.
