/**
 * The eight flat tables an OCEL 2.0 document is turned into, defined as the
 * rows the flattener is expected to produce, and the properties of those rows.
 *
 * object_types and event_types share the row shape `TypeRow` (their first
 * column is called object_type_name and event_type_name respectively);
 * object_relationships and event_object_relationships share `RelationshipRow`
 * (source_object_id/target_object_id and event_id/object_id respectively).
 */
module OcelTables {
  import opened Wrappers
  import opened OcelDocument
  import opened RowBuilding

  datatype TypeRow = TypeRow(typeName: string, attributeName: string, attributeType: string)
  datatype ObjectRow = ObjectRow(objectId: string, objectType: string)
  datatype ObjectAttributeRow = ObjectAttributeRow(
    objectId: string, attributeName: string, attributeValue: string, attributeTime: Option<string>)
  datatype RelationshipRow = RelationshipRow(parentId: string, objectId: string, qualifier: string)
  datatype EventRow = EventRow(eventId: string, eventType: string, eventTime: string)
  datatype EventAttributeRow = EventAttributeRow(eventId: string, attributeName: string, attributeValue: string)

  // ---------------------------------------------------------------------------
  // One row from one nested element. Keys are read in the order the source's
  // dictionary displays evaluate them, so the first missing one is reported.

  /** `name` is read before `type`; the row carries the declaring type's name. */
  function TypeAttributeRow(typeName: string, a: AttributeDecl): (r: Result<TypeRow, SchemaError>)
    ensures r.Ok? <==> a.name.Some? && a.typ.Some?
    ensures a.name.None? ==> r == Err(MissingKey("name"))
    ensures a.name.Some? && a.typ.None? ==> r == Err(MissingKey("type"))
    ensures r.Ok? ==> r.value.typeName == typeName && r.value.attributeName == a.name.value
                      && r.value.attributeType == a.typ.value
  {
    match (a.name, a.typ)
    case (None, _) => Err(MissingKey("name"))
    case (Some(_), None) => Err(MissingKey("type"))
    case (Some(n), Some(t)) => Ok(TypeRow(typeName, n, t))
  }

  /** The value is stored as `str(value)`; an absent `time` is stored as null. */
  function ObjectAttributeRowOf(objectId: string, a: AttributeValue): (r: Result<ObjectAttributeRow, SchemaError>)
    ensures r.Ok? <==> a.name.Some? && a.value.Some?
    ensures a.name.None? ==> r == Err(MissingKey("name"))
    ensures a.name.Some? && a.value.None? ==> r == Err(MissingKey("value"))
    ensures r.Ok? ==> && r.value.objectId == objectId && r.value.attributeName == a.name.value
                      && r.value.attributeValue == Stringify(a.value.value)
                      && r.value.attributeTime == a.time
    ensures r.Ok? && a.value.value.Str? ==> r.value.attributeValue == a.value.value.s
  {
    match (a.name, a.value)
    case (None, _) => Err(MissingKey("name"))
    case (Some(_), None) => Err(MissingKey("value"))
    case (Some(n), Some(v)) => Ok(ObjectAttributeRow(objectId, n, Stringify(v), a.time))
  }

  /** Like an object attribute row, but without a time column. */
  function EventAttributeRowOf(eventId: string, a: AttributeValue): (r: Result<EventAttributeRow, SchemaError>)
    ensures r.Ok? <==> a.name.Some? && a.value.Some?
    ensures a.name.None? ==> r == Err(MissingKey("name"))
    ensures a.name.Some? && a.value.None? ==> r == Err(MissingKey("value"))
    ensures r.Ok? ==> && r.value.eventId == eventId && r.value.attributeName == a.name.value
                      && r.value.attributeValue == Stringify(a.value.value)
    ensures r.Ok? && a.value.value.Str? ==> r.value.attributeValue == a.value.value.s
  {
    match (a.name, a.value)
    case (None, _) => Err(MissingKey("name"))
    case (Some(_), None) => Err(MissingKey("value"))
    case (Some(n), Some(v)) => Ok(EventAttributeRow(eventId, n, Stringify(v)))
  }

  /** `objectId` is required; an absent `qualifier` becomes `""`, never null. */
  function RelationshipRowOf(parentId: string, rel: Relationship): (r: Result<RelationshipRow, SchemaError>)
    ensures r.Ok? <==> rel.objectId.Some?
    ensures r.Err? ==> r.error == MissingKey("objectId")
    ensures r.Ok? ==> r.value.parentId == parentId && r.value.objectId == rel.objectId.value
    ensures r.Ok? && rel.qualifier.None? ==> r.value.qualifier == ""
    ensures r.Ok? && rel.qualifier.Some? ==> r.value.qualifier == rel.qualifier.value
  {
    match rel.objectId
    case None => Err(MissingKey("objectId"))
    case Some(o) => Ok(RelationshipRow(parentId, o, rel.qualifier.GetOr("")))
  }

  // ---------------------------------------------------------------------------
  // The rows one top-level element contributes.

  /** `name` and `attributes` are both indexed directly on a type. */
  function TypeRowsOf(t: ElementType): Result<seq<TypeRow>, SchemaError> {
    match (t.name, t.attributes)
    case (None, _) => Err(MissingKey("name"))
    case (Some(_), None) => Err(MissingKey("attributes"))
    case (Some(n), Some(attrs)) => MapWith(n, attrs, TypeAttributeRow)
  }

  function ObjectRowsOf(o: OcelObject): Result<seq<ObjectRow>, SchemaError> {
    match (o.id, o.typ)
    case (None, _) => Err(MissingKey("id"))
    case (Some(_), None) => Err(MissingKey("type"))
    case (Some(i), Some(t)) => Ok([ObjectRow(i, t)])
  }

  /** The id is read before the (possibly absent) attribute list is walked. */
  function ObjectAttributeRowsOf(o: OcelObject): Result<seq<ObjectAttributeRow>, SchemaError> {
    match o.id
    case None => Err(MissingKey("id"))
    case Some(i) => MapWith(i, o.attributes.GetOr([]), ObjectAttributeRowOf)
  }

  function ObjectRelationshipRowsOf(o: OcelObject): Result<seq<RelationshipRow>, SchemaError> {
    match o.id
    case None => Err(MissingKey("id"))
    case Some(i) => MapWith(i, o.relationships.GetOr([]), RelationshipRowOf)
  }

  function EventRowsOf(e: OcelEvent): Result<seq<EventRow>, SchemaError> {
    match (e.id, e.typ, e.time)
    case (None, _, _) => Err(MissingKey("id"))
    case (Some(_), None, _) => Err(MissingKey("type"))
    case (Some(_), Some(_), None) => Err(MissingKey("time"))
    case (Some(i), Some(t), Some(tm)) => Ok([EventRow(i, t, tm)])
  }

  function EventAttributeRowsOf(e: OcelEvent): Result<seq<EventAttributeRow>, SchemaError> {
    match e.id
    case None => Err(MissingKey("id"))
    case Some(i) => MapWith(i, e.attributes.GetOr([]), EventAttributeRowOf)
  }

  function EventRelationshipRowsOf(e: OcelEvent): Result<seq<RelationshipRow>, SchemaError> {
    match e.id
    case None => Err(MissingKey("id"))
    case Some(i) => MapWith(i, e.relationships.GetOr([]), RelationshipRowOf)
  }

  // ---------------------------------------------------------------------------
  // The eight tables.

  function TypeTable(key: string, types: Option<seq<ElementType>>): Result<seq<TypeRow>, SchemaError> {
    match types
    case None => Err(MissingKey(key))
    case Some(ts) => FlatMap(ts, TypeRowsOf)
  }

  function ObjectTypesTable(doc: Document): Result<seq<TypeRow>, SchemaError> {
    TypeTable("objectTypes", doc.objectTypes)
  }

  function EventTypesTable(doc: Document): Result<seq<TypeRow>, SchemaError> {
    TypeTable("eventTypes", doc.eventTypes)
  }

  function ObjectsTable(doc: Document): Result<seq<ObjectRow>, SchemaError> {
    match doc.objects
    case None => Err(MissingKey("objects"))
    case Some(os) => FlatMap(os, ObjectRowsOf)
  }

  function ObjectAttributesTable(doc: Document): Result<seq<ObjectAttributeRow>, SchemaError> {
    match doc.objects
    case None => Err(MissingKey("objects"))
    case Some(os) => FlatMap(os, ObjectAttributeRowsOf)
  }

  function ObjectRelationshipsTable(doc: Document): Result<seq<RelationshipRow>, SchemaError> {
    match doc.objects
    case None => Err(MissingKey("objects"))
    case Some(os) => FlatMap(os, ObjectRelationshipRowsOf)
  }

  function EventsTable(doc: Document): Result<seq<EventRow>, SchemaError> {
    match doc.events
    case None => Err(MissingKey("events"))
    case Some(es) => FlatMap(es, EventRowsOf)
  }

  function EventAttributesTable(doc: Document): Result<seq<EventAttributeRow>, SchemaError> {
    match doc.events
    case None => Err(MissingKey("events"))
    case Some(es) => FlatMap(es, EventAttributeRowsOf)
  }

  function EventObjectRelationshipsTable(doc: Document): Result<seq<RelationshipRow>, SchemaError> {
    match doc.events
    case None => Err(MissingKey("events"))
    case Some(es) => FlatMap(es, EventRelationshipRowsOf)
  }

  // ---------------------------------------------------------------------------
  // Counting helpers.

  function DeclCount(t: ElementType): nat {
    |t.attributes.GetOr([])|
  }

  function ObjectAttributeCount(o: OcelObject): nat {
    |o.attributes.GetOr([])|
  }

  function ObjectRelationshipCount(o: OcelObject): nat {
    |o.relationships.GetOr([])|
  }

  function EventAttributeCount(e: OcelEvent): nat {
    |e.attributes.GetOr([])|
  }

  function EventRelationshipCount(e: OcelEvent): nat {
    |e.relationships.GetOr([])|
  }
}
