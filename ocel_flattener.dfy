/**
 * The row-building loops of the flattener (`OCELUCSchema` and its copy in
 * `OCEL2UCImporter`). Each builder walks a top-level array of the document,
 * walks each element's nested array, and appends one row per nested element
 * to a growing list; a missing key stops it with a KeyError. Each is proved to
 * produce exactly the rows its table's specification function defines.
 * Handing the rows to Spark is not modelled.
 */
module OcelFlattener {
  import opened Wrappers
  import opened OcelDocument
  import opened RowBuilding
  import opened OcelTables
  import opened OcelProperties

  /** The loop shared by object_types and event_types; `key` names the top-level array. */
  method BuildTypeRows(key: string, types: Option<seq<ElementType>>) returns (r: Result<seq<TypeRow>, SchemaError>)
    ensures r == TypeTable(key, types)
  {
    if types.None? {
      return Err(MissingKey(key));
    }
    var ts := types.value;
    var rows: seq<TypeRow> := [];
    for i := 0 to |ts|
      invariant FlatMap(ts[..i], TypeRowsOf) == Ok(rows)
    {
      var elementType := ts[i];
      if elementType.name.None? {
        FlatMapStopsAt(ts, i, TypeRowsOf);
        return Err(MissingKey("name"));
      }
      var typeName := elementType.name.value;
      if elementType.attributes.None? {
        FlatMapStopsAt(ts, i, TypeRowsOf);
        return Err(MissingKey("attributes"));
      }
      var attrs := elementType.attributes.value;
      ghost var before := rows;
      for j := 0 to |attrs|
        invariant MapWith(typeName, attrs[..j], TypeAttributeRow).Ok?
        invariant rows == before + MapWith(typeName, attrs[..j], TypeAttributeRow).value
      {
        var attr := attrs[j];
        if attr.name.None? {
          MapWithStopsAt(typeName, attrs, j, TypeAttributeRow);
          FlatMapStopsAt(ts, i, TypeRowsOf);
          return Err(MissingKey("name"));
        }
        if attr.typ.None? {
          MapWithStopsAt(typeName, attrs, j, TypeAttributeRow);
          FlatMapStopsAt(ts, i, TypeRowsOf);
          return Err(MissingKey("type"));
        }
        rows := rows + [TypeRow(typeName, attr.name.value, attr.typ.value)];
        assert attrs[..j + 1][..j] == attrs[..j];
      }
      assert attrs[..|attrs|] == attrs;
      assert ts[..i + 1][..i] == ts[..i];
    }
    assert ts[..|ts|] == ts;
    return Ok(rows);
  }

  method CreateObjectTypesRows(doc: Document) returns (r: Result<seq<TypeRow>, SchemaError>)
    ensures r == ObjectTypesTable(doc)
  {
    r := BuildTypeRows("objectTypes", doc.objectTypes);
  }

  method CreateEventTypesRows(doc: Document) returns (r: Result<seq<TypeRow>, SchemaError>)
    ensures r == EventTypesTable(doc)
  {
    r := BuildTypeRows("eventTypes", doc.eventTypes);
  }

  method CreateObjectsRows(doc: Document) returns (r: Result<seq<ObjectRow>, SchemaError>)
    ensures r == ObjectsTable(doc)
  {
    if doc.objects.None? {
      return Err(MissingKey("objects"));
    }
    var os := doc.objects.value;
    var rows: seq<ObjectRow> := [];
    for i := 0 to |os|
      invariant FlatMap(os[..i], ObjectRowsOf) == Ok(rows)
    {
      var obj := os[i];
      if obj.id.None? {
        FlatMapStopsAt(os, i, ObjectRowsOf);
        return Err(MissingKey("id"));
      }
      if obj.typ.None? {
        FlatMapStopsAt(os, i, ObjectRowsOf);
        return Err(MissingKey("type"));
      }
      rows := rows + [ObjectRow(obj.id.value, obj.typ.value)];
      assert os[..i + 1][..i] == os[..i];
    }
    assert os[..|os|] == os;
    return Ok(rows);
  }

  method CreateObjectAttributesRows(doc: Document) returns (r: Result<seq<ObjectAttributeRow>, SchemaError>)
    ensures r == ObjectAttributesTable(doc)
  {
    if doc.objects.None? {
      return Err(MissingKey("objects"));
    }
    var os := doc.objects.value;
    var rows: seq<ObjectAttributeRow> := [];
    for i := 0 to |os|
      invariant FlatMap(os[..i], ObjectAttributeRowsOf) == Ok(rows)
    {
      var obj := os[i];
      if obj.id.None? {
        FlatMapStopsAt(os, i, ObjectAttributeRowsOf);
        return Err(MissingKey("id"));
      }
      var objId := obj.id.value;
      var attrs := obj.attributes.GetOr([]);
      ghost var before := rows;
      for j := 0 to |attrs|
        invariant MapWith(objId, attrs[..j], ObjectAttributeRowOf).Ok?
        invariant rows == before + MapWith(objId, attrs[..j], ObjectAttributeRowOf).value
      {
        var attr := attrs[j];
        if attr.name.None? {
          MapWithStopsAt(objId, attrs, j, ObjectAttributeRowOf);
          FlatMapStopsAt(os, i, ObjectAttributeRowsOf);
          return Err(MissingKey("name"));
        }
        if attr.value.None? {
          MapWithStopsAt(objId, attrs, j, ObjectAttributeRowOf);
          FlatMapStopsAt(os, i, ObjectAttributeRowsOf);
          return Err(MissingKey("value"));
        }
        rows := rows + [ObjectAttributeRow(objId, attr.name.value, Stringify(attr.value.value), attr.time)];
        assert attrs[..j + 1][..j] == attrs[..j];
      }
      assert attrs[..|attrs|] == attrs;
      assert os[..i + 1][..i] == os[..i];
    }
    assert os[..|os|] == os;
    return Ok(rows);
  }

  method CreateObjectRelationshipsRows(doc: Document) returns (r: Result<seq<RelationshipRow>, SchemaError>)
    ensures r == ObjectRelationshipsTable(doc)
  {
    if doc.objects.None? {
      return Err(MissingKey("objects"));
    }
    var os := doc.objects.value;
    var rows: seq<RelationshipRow> := [];
    for i := 0 to |os|
      invariant FlatMap(os[..i], ObjectRelationshipRowsOf) == Ok(rows)
    {
      var obj := os[i];
      if obj.id.None? {
        FlatMapStopsAt(os, i, ObjectRelationshipRowsOf);
        return Err(MissingKey("id"));
      }
      var sourceId := obj.id.value;
      var rels := obj.relationships.GetOr([]);
      ghost var before := rows;
      for j := 0 to |rels|
        invariant MapWith(sourceId, rels[..j], RelationshipRowOf).Ok?
        invariant rows == before + MapWith(sourceId, rels[..j], RelationshipRowOf).value
      {
        var rel := rels[j];
        if rel.objectId.None? {
          MapWithStopsAt(sourceId, rels, j, RelationshipRowOf);
          FlatMapStopsAt(os, i, ObjectRelationshipRowsOf);
          return Err(MissingKey("objectId"));
        }
        rows := rows + [RelationshipRow(sourceId, rel.objectId.value, rel.qualifier.GetOr(""))];
        assert rels[..j + 1][..j] == rels[..j];
      }
      assert rels[..|rels|] == rels;
      assert os[..i + 1][..i] == os[..i];
    }
    assert os[..|os|] == os;
    return Ok(rows);
  }

  method CreateEventsRows(doc: Document) returns (r: Result<seq<EventRow>, SchemaError>)
    ensures r == EventsTable(doc)
  {
    if doc.events.None? {
      return Err(MissingKey("events"));
    }
    var es := doc.events.value;
    var rows: seq<EventRow> := [];
    for i := 0 to |es|
      invariant FlatMap(es[..i], EventRowsOf) == Ok(rows)
    {
      var event := es[i];
      if event.id.None? {
        FlatMapStopsAt(es, i, EventRowsOf);
        return Err(MissingKey("id"));
      }
      if event.typ.None? {
        FlatMapStopsAt(es, i, EventRowsOf);
        return Err(MissingKey("type"));
      }
      if event.time.None? {
        FlatMapStopsAt(es, i, EventRowsOf);
        return Err(MissingKey("time"));
      }
      rows := rows + [EventRow(event.id.value, event.typ.value, event.time.value)];
      assert es[..i + 1][..i] == es[..i];
    }
    assert es[..|es|] == es;
    return Ok(rows);
  }

  method CreateEventAttributesRows(doc: Document) returns (r: Result<seq<EventAttributeRow>, SchemaError>)
    ensures r == EventAttributesTable(doc)
  {
    if doc.events.None? {
      return Err(MissingKey("events"));
    }
    var es := doc.events.value;
    var rows: seq<EventAttributeRow> := [];
    for i := 0 to |es|
      invariant FlatMap(es[..i], EventAttributeRowsOf) == Ok(rows)
    {
      var event := es[i];
      if event.id.None? {
        FlatMapStopsAt(es, i, EventAttributeRowsOf);
        return Err(MissingKey("id"));
      }
      var eventId := event.id.value;
      var attrs := event.attributes.GetOr([]);
      ghost var before := rows;
      for j := 0 to |attrs|
        invariant MapWith(eventId, attrs[..j], EventAttributeRowOf).Ok?
        invariant rows == before + MapWith(eventId, attrs[..j], EventAttributeRowOf).value
      {
        var attr := attrs[j];
        if attr.name.None? {
          MapWithStopsAt(eventId, attrs, j, EventAttributeRowOf);
          FlatMapStopsAt(es, i, EventAttributeRowsOf);
          return Err(MissingKey("name"));
        }
        if attr.value.None? {
          MapWithStopsAt(eventId, attrs, j, EventAttributeRowOf);
          FlatMapStopsAt(es, i, EventAttributeRowsOf);
          return Err(MissingKey("value"));
        }
        rows := rows + [EventAttributeRow(eventId, attr.name.value, Stringify(attr.value.value))];
        assert attrs[..j + 1][..j] == attrs[..j];
      }
      assert attrs[..|attrs|] == attrs;
      assert es[..i + 1][..i] == es[..i];
    }
    assert es[..|es|] == es;
    return Ok(rows);
  }

  method CreateEventObjectRelationshipsRows(doc: Document) returns (r: Result<seq<RelationshipRow>, SchemaError>)
    ensures r == EventObjectRelationshipsTable(doc)
  {
    if doc.events.None? {
      return Err(MissingKey("events"));
    }
    var es := doc.events.value;
    var rows: seq<RelationshipRow> := [];
    for i := 0 to |es|
      invariant FlatMap(es[..i], EventRelationshipRowsOf) == Ok(rows)
    {
      var event := es[i];
      if event.id.None? {
        FlatMapStopsAt(es, i, EventRelationshipRowsOf);
        return Err(MissingKey("id"));
      }
      var eventId := event.id.value;
      var rels := event.relationships.GetOr([]);
      ghost var before := rows;
      for j := 0 to |rels|
        invariant MapWith(eventId, rels[..j], RelationshipRowOf).Ok?
        invariant rows == before + MapWith(eventId, rels[..j], RelationshipRowOf).value
      {
        var rel := rels[j];
        if rel.objectId.None? {
          MapWithStopsAt(eventId, rels, j, RelationshipRowOf);
          FlatMapStopsAt(es, i, EventRelationshipRowsOf);
          return Err(MissingKey("objectId"));
        }
        rows := rows + [RelationshipRow(eventId, rel.objectId.value, rel.qualifier.GetOr(""))];
        assert rels[..j + 1][..j] == rels[..j];
      }
      assert rels[..|rels|] == rels;
      assert es[..i + 1][..i] == es[..i];
    }
    assert es[..|es|] == es;
    return Ok(rows);
  }

  // ---------------------------------------------------------------------------
  // The whole run: the eight builders in their fixed order, each table saved
  // (overwritten) as soon as it is built. A failing builder stops the run and
  // the tables saved before it stay saved.

  datatype Table =
    | ObjectTypes(typeRows: seq<TypeRow>)
    | EventTypes(typeRows: seq<TypeRow>)
    | Objects(objectRows: seq<ObjectRow>)
    | ObjectAttributes(objectAttributeRows: seq<ObjectAttributeRow>)
    | ObjectRelationships(relationshipRows: seq<RelationshipRow>)
    | Events(eventRows: seq<EventRow>)
    | EventAttributes(eventAttributeRows: seq<EventAttributeRow>)
    | EventObjectRelationships(relationshipRows: seq<RelationshipRow>)
  {
    function Name(): string {
      match this
      case ObjectTypes(_) => "object_types"
      case EventTypes(_) => "event_types"
      case Objects(_) => "objects"
      case ObjectAttributes(_) => "object_attributes"
      case ObjectRelationships(_) => "object_relationships"
      case Events(_) => "events"
      case EventAttributes(_) => "event_attributes"
      case EventObjectRelationships(_) => "event_object_relationships"
    }
  }

  const TableNames: seq<string> := [
    "object_types", "event_types", "objects", "object_attributes",
    "object_relationships", "events", "event_attributes", "event_object_relationships"]

  /** The `k`-th table of the run, as its specification function defines it. */
  function TableAt(k: nat, doc: Document): (r: Result<Table, SchemaError>)
    requires k < |TableNames|
    ensures r.Ok? ==> r.value.Name() == TableNames[k]
  {
    match k
    case 0 => (match ObjectTypesTable(doc) case Ok(t) => Ok(ObjectTypes(t)) case Err(e) => Err(e))
    case 1 => (match EventTypesTable(doc) case Ok(t) => Ok(EventTypes(t)) case Err(e) => Err(e))
    case 2 => (match ObjectsTable(doc) case Ok(t) => Ok(Objects(t)) case Err(e) => Err(e))
    case 3 => (match ObjectAttributesTable(doc) case Ok(t) => Ok(ObjectAttributes(t)) case Err(e) => Err(e))
    case 4 => (match ObjectRelationshipsTable(doc) case Ok(t) => Ok(ObjectRelationships(t)) case Err(e) => Err(e))
    case 5 => (match EventsTable(doc) case Ok(t) => Ok(Events(t)) case Err(e) => Err(e))
    case 6 => (match EventAttributesTable(doc) case Ok(t) => Ok(EventAttributes(t)) case Err(e) => Err(e))
    case 7 => (match EventObjectRelationshipsTable(doc) case Ok(t) => Ok(EventObjectRelationships(t)) case Err(e) => Err(e))
  }

  /** Runs the `k`-th builder and wraps its rows as that table. */
  method BuildTable(k: nat, doc: Document) returns (r: Result<Table, SchemaError>)
    requires k < |TableNames|
    ensures r == TableAt(k, doc)
  {
    match k {
      case 0 =>
        var t := CreateObjectTypesRows(doc);
        r := if t.Ok? then Ok(ObjectTypes(t.value)) else Err(t.error);
      case 1 =>
        var t := CreateEventTypesRows(doc);
        r := if t.Ok? then Ok(EventTypes(t.value)) else Err(t.error);
      case 2 =>
        var t := CreateObjectsRows(doc);
        r := if t.Ok? then Ok(Objects(t.value)) else Err(t.error);
      case 3 =>
        var t := CreateObjectAttributesRows(doc);
        r := if t.Ok? then Ok(ObjectAttributes(t.value)) else Err(t.error);
      case 4 =>
        var t := CreateObjectRelationshipsRows(doc);
        r := if t.Ok? then Ok(ObjectRelationships(t.value)) else Err(t.error);
      case 5 =>
        var t := CreateEventsRows(doc);
        r := if t.Ok? then Ok(Events(t.value)) else Err(t.error);
      case 6 =>
        var t := CreateEventAttributesRows(doc);
        r := if t.Ok? then Ok(EventAttributes(t.value)) else Err(t.error);
      case 7 =>
        var t := CreateEventObjectRelationshipsRows(doc);
        r := if t.Ok? then Ok(EventObjectRelationships(t.value)) else Err(t.error);
    }
  }

  /** Every table of the run builds exactly when the document is well formed. */
  lemma RunBuildsIffWellFormed(doc: Document)
    ensures (forall k :: 0 <= k < |TableNames| ==> TableAt(k, doc).Ok?) <==> WellFormed(doc)
  {
    AllTablesBuildIffWellFormed(doc);
    assert AllTablesBuild(doc) <==> forall k :: 0 <= k < |TableNames| ==> TableAt(k, doc).Ok? by {
      if !AllTablesBuild(doc) {
        if ObjectTypesTable(doc).Err? { assert TableAt(0, doc).Err?; }
        else if EventTypesTable(doc).Err? { assert TableAt(1, doc).Err?; }
        else if ObjectsTable(doc).Err? { assert TableAt(2, doc).Err?; }
        else if ObjectAttributesTable(doc).Err? { assert TableAt(3, doc).Err?; }
        else if ObjectRelationshipsTable(doc).Err? { assert TableAt(4, doc).Err?; }
        else if EventsTable(doc).Err? { assert TableAt(5, doc).Err?; }
        else if EventAttributesTable(doc).Err? { assert TableAt(6, doc).Err?; }
        else { assert TableAt(7, doc).Err?; }
      }
    }
  }

  /**
   * Runs the eight builders in order. `written` are the tables saved, a prefix
   * of the fixed order; `failure` is the KeyError that stopped the run, if any.
   */
  method WriteOcelJsonToSchema(doc: Document) returns (written: seq<Table>, failure: Option<SchemaError>)
    ensures |written| <= |TableNames|
    ensures forall k :: 0 <= k < |written| ==> TableAt(k, doc) == Ok(written[k])
    ensures failure.None? <==> |written| == |TableNames|
    ensures failure.Some? ==> TableAt(|written|, doc) == Err(failure.value)
    ensures failure.None? <==> WellFormed(doc)
  {
    RunBuildsIffWellFormed(doc);
    written := [];
    for k := 0 to |TableNames|
      invariant |written| == k
      invariant forall j :: 0 <= j < k ==> TableAt(j, doc) == Ok(written[j])
    {
      var table := BuildTable(k, doc);
      if table.Err? {
        return written, Some(table.error);
      }
      written := written + [table.value];
    }
    failure := None;
  }
}
