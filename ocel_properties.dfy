/**
 * What the flattener promises about its eight tables: row counts, order,
 * copied fields, defaults for absent keys, parent ids, and exactly which
 * documents it accepts.
 */
module OcelProperties {
  import opened Wrappers
  import opened OcelDocument
  import opened RowBuilding
  import opened OcelTables

  // ---------------------------------------------------------------------------
  // Which documents build: every key the source indexes directly is present.

  ghost predicate TypeWellFormed(t: ElementType) {
    && t.name.Some?
    && t.attributes.Some?
    && forall j :: 0 <= j < |t.attributes.value| ==>
         t.attributes.value[j].name.Some? && t.attributes.value[j].typ.Some?
  }

  ghost predicate AttributesWellFormed(attrs: seq<AttributeValue>) {
    forall j :: 0 <= j < |attrs| ==> attrs[j].name.Some? && attrs[j].value.Some?
  }

  ghost predicate RelationshipsWellFormed(rels: seq<Relationship>) {
    forall j :: 0 <= j < |rels| ==> rels[j].objectId.Some?
  }

  ghost predicate ObjectWellFormed(o: OcelObject) {
    && o.id.Some?
    && o.typ.Some?
    && AttributesWellFormed(o.attributes.GetOr([]))
    && RelationshipsWellFormed(o.relationships.GetOr([]))
  }

  ghost predicate EventWellFormed(e: OcelEvent) {
    && e.id.Some?
    && e.typ.Some?
    && e.time.Some?
    && AttributesWellFormed(e.attributes.GetOr([]))
    && RelationshipsWellFormed(e.relationships.GetOr([]))
  }

  ghost predicate WellFormed(doc: Document) {
    && doc.objectTypes.Some? && (forall i :: 0 <= i < |doc.objectTypes.value| ==> TypeWellFormed(doc.objectTypes.value[i]))
    && doc.eventTypes.Some? && (forall i :: 0 <= i < |doc.eventTypes.value| ==> TypeWellFormed(doc.eventTypes.value[i]))
    && doc.objects.Some? && (forall i :: 0 <= i < |doc.objects.value| ==> ObjectWellFormed(doc.objects.value[i]))
    && doc.events.Some? && (forall i :: 0 <= i < |doc.events.value| ==> EventWellFormed(doc.events.value[i]))
  }

  ghost predicate AllTablesBuild(doc: Document) {
    && ObjectTypesTable(doc).Ok?
    && EventTypesTable(doc).Ok?
    && ObjectsTable(doc).Ok?
    && ObjectAttributesTable(doc).Ok?
    && ObjectRelationshipsTable(doc).Ok?
    && EventsTable(doc).Ok?
    && EventAttributesTable(doc).Ok?
    && EventObjectRelationshipsTable(doc).Ok?
  }

  /** All eight tables build exactly when no directly indexed key is missing. */
  lemma AllTablesBuildIffWellFormed(doc: Document)
    ensures AllTablesBuild(doc) <==> WellFormed(doc)
  {
    forall t: ElementType ensures TypeRowsOf(t).Ok? <==> TypeWellFormed(t) {}
    forall o: OcelObject
      ensures ObjectAttributeRowsOf(o).Ok? <==> o.id.Some? && AttributesWellFormed(o.attributes.GetOr([]))
      ensures ObjectRelationshipRowsOf(o).Ok? <==> o.id.Some? && RelationshipsWellFormed(o.relationships.GetOr([]))
    {}
    forall e: OcelEvent
      ensures EventAttributeRowsOf(e).Ok? <==> e.id.Some? && AttributesWellFormed(e.attributes.GetOr([]))
      ensures EventRelationshipRowsOf(e).Ok? <==> e.id.Some? && RelationshipsWellFormed(e.relationships.GetOr([]))
    {}
  }

  // ---------------------------------------------------------------------------
  // object_types and event_types

  /** A type contributes one row per declared attribute, in order, each carrying the type's name. */
  lemma TypeRowsOfDeclarations(t: ElementType)
    requires TypeRowsOf(t).Ok?
    ensures var rows, attrs := TypeRowsOf(t).value, t.attributes.value;
      && |rows| == |attrs|
      && forall j :: 0 <= j < |attrs| ==>
           rows[j] == TypeRow(t.name.value, attrs[j].name.value, attrs[j].typ.value)
  {
  }

  /** A type table has one row per (type, attribute) pair, each naming a type of the document. */
  lemma TypeTableRows(key: string, types: Option<seq<ElementType>>)
    requires TypeTable(key, types).Ok?
    ensures types.Some?
    ensures |TypeTable(key, types).value| == SumOf(types.value, DeclCount)
    ensures forall row :: row in TypeTable(key, types).value ==>
              exists i :: 0 <= i < |types.value| && types.value[i].name == Some(row.typeName)
  {
    var ts := types.value;
    forall t | TypeRowsOf(t).Ok? ensures |TypeRowsOf(t).value| == DeclCount(t) {}
    FlatMapLength(ts, TypeRowsOf, DeclCount);
    forall row | row in TypeTable(key, types).value
      ensures exists i :: 0 <= i < |ts| && ts[i].name == Some(row.typeName)
    {
      FlatMapMember(ts, TypeRowsOf, row);
      var i :| 0 <= i < |ts| && row in TypeRowsOf(ts[i]).value;
      TypeRowsOfDeclarations(ts[i]);
    }
  }

  // ---------------------------------------------------------------------------
  // objects and events

  /** objects has one row per object, in document order, with id and type copied. */
  lemma ObjectsTableRows(doc: Document)
    requires ObjectsTable(doc).Ok?
    ensures doc.objects.Some?
    ensures var rows, os := ObjectsTable(doc).value, doc.objects.value;
      && |rows| == |os|
      && forall i :: 0 <= i < |os| ==> rows[i] == ObjectRow(os[i].id.value, os[i].typ.value)
  {
    var os := doc.objects.value;
    forall o | ObjectRowsOf(o).Ok? ensures |ObjectRowsOf(o).value| == 1 {}
    FlatMapSingletons(os, ObjectRowsOf);
  }

  /** events has one row per event, in document order, with id, type and time copied. */
  lemma EventsTableRows(doc: Document)
    requires EventsTable(doc).Ok?
    ensures doc.events.Some?
    ensures var rows, es := EventsTable(doc).value, doc.events.value;
      && |rows| == |es|
      && forall i :: 0 <= i < |es| ==> rows[i] == EventRow(es[i].id.value, es[i].typ.value, es[i].time.value)
  {
    var es := doc.events.value;
    forall e | EventRowsOf(e).Ok? ensures |EventRowsOf(e).value| == 1 {}
    FlatMapSingletons(es, EventRowsOf);
  }

  // ---------------------------------------------------------------------------
  // Attribute and relationship rows of one object or event

  /**
   * An object's attribute rows follow its attributes: the object's id, the
   * attribute's name, `str()` of its value and its time, or null when absent.
   * An object without an `attributes` key contributes no rows.
   */
  lemma ObjectAttributeRowsOfAttributes(o: OcelObject)
    requires ObjectAttributeRowsOf(o).Ok?
    ensures o.id.Some?
    ensures var rows, attrs := ObjectAttributeRowsOf(o).value, o.attributes.GetOr([]);
      && |rows| == |attrs|
      && forall j :: 0 <= j < |attrs| ==>
           rows[j] == ObjectAttributeRow(o.id.value, attrs[j].name.value, Stringify(attrs[j].value.value), attrs[j].time)
    ensures o.attributes.None? ==> ObjectAttributeRowsOf(o).value == []
  {
  }

  lemma EventAttributeRowsOfAttributes(e: OcelEvent)
    requires EventAttributeRowsOf(e).Ok?
    ensures e.id.Some?
    ensures var rows, attrs := EventAttributeRowsOf(e).value, e.attributes.GetOr([]);
      && |rows| == |attrs|
      && forall j :: 0 <= j < |attrs| ==>
           rows[j] == EventAttributeRow(e.id.value, attrs[j].name.value, Stringify(attrs[j].value.value))
    ensures e.attributes.None? ==> EventAttributeRowsOf(e).value == []
  {
  }

  /** Relationship rows carry the parent id and the qualifier, or "" when it is absent; never null. */
  lemma ObjectRelationshipRowsOfRelationships(o: OcelObject)
    requires ObjectRelationshipRowsOf(o).Ok?
    ensures o.id.Some?
    ensures var rows, rels := ObjectRelationshipRowsOf(o).value, o.relationships.GetOr([]);
      && |rows| == |rels|
      && forall j :: 0 <= j < |rels| ==>
           && rows[j].parentId == o.id.value
           && rows[j].objectId == rels[j].objectId.value
           && rows[j].qualifier == (if rels[j].qualifier.Some? then rels[j].qualifier.value else "")
    ensures o.relationships.None? ==> ObjectRelationshipRowsOf(o).value == []
  {
  }

  lemma EventRelationshipRowsOfRelationships(e: OcelEvent)
    requires EventRelationshipRowsOf(e).Ok?
    ensures e.id.Some?
    ensures var rows, rels := EventRelationshipRowsOf(e).value, e.relationships.GetOr([]);
      && |rows| == |rels|
      && forall j :: 0 <= j < |rels| ==>
           && rows[j].parentId == e.id.value
           && rows[j].objectId == rels[j].objectId.value
           && rows[j].qualifier == (if rels[j].qualifier.Some? then rels[j].qualifier.value else "")
    ensures e.relationships.None? ==> EventRelationshipRowsOf(e).value == []
  {
  }

  // ---------------------------------------------------------------------------
  // Row counts of the attribute and relationship tables

  lemma ObjectAttributesTableCount(doc: Document)
    requires ObjectAttributesTable(doc).Ok?
    ensures doc.objects.Some?
    ensures |ObjectAttributesTable(doc).value| == SumOf(doc.objects.value, ObjectAttributeCount)
  {
    forall o | ObjectAttributeRowsOf(o).Ok? ensures |ObjectAttributeRowsOf(o).value| == ObjectAttributeCount(o) {}
    FlatMapLength(doc.objects.value, ObjectAttributeRowsOf, ObjectAttributeCount);
  }

  lemma ObjectRelationshipsTableCount(doc: Document)
    requires ObjectRelationshipsTable(doc).Ok?
    ensures doc.objects.Some?
    ensures |ObjectRelationshipsTable(doc).value| == SumOf(doc.objects.value, ObjectRelationshipCount)
  {
    forall o | ObjectRelationshipRowsOf(o).Ok? ensures |ObjectRelationshipRowsOf(o).value| == ObjectRelationshipCount(o) {}
    FlatMapLength(doc.objects.value, ObjectRelationshipRowsOf, ObjectRelationshipCount);
  }

  lemma EventAttributesTableCount(doc: Document)
    requires EventAttributesTable(doc).Ok?
    ensures doc.events.Some?
    ensures |EventAttributesTable(doc).value| == SumOf(doc.events.value, EventAttributeCount)
  {
    forall e | EventAttributeRowsOf(e).Ok? ensures |EventAttributeRowsOf(e).value| == EventAttributeCount(e) {}
    FlatMapLength(doc.events.value, EventAttributeRowsOf, EventAttributeCount);
  }

  lemma EventObjectRelationshipsTableCount(doc: Document)
    requires EventObjectRelationshipsTable(doc).Ok?
    ensures doc.events.Some?
    ensures |EventObjectRelationshipsTable(doc).value| == SumOf(doc.events.value, EventRelationshipCount)
  {
    forall e | EventRelationshipRowsOf(e).Ok? ensures |EventRelationshipRowsOf(e).value| == EventRelationshipCount(e) {}
    FlatMapLength(doc.events.value, EventRelationshipRowsOf, EventRelationshipCount);
  }

  // ---------------------------------------------------------------------------
  // Every attribute or relationship row references a row of its parent table

  lemma ObjectAttributeParentsExist(doc: Document)
    requires ObjectsTable(doc).Ok? && ObjectAttributesTable(doc).Ok?
    ensures forall row :: row in ObjectAttributesTable(doc).value ==>
              exists p :: p in ObjectsTable(doc).value && p.objectId == row.objectId
  {
    var os := doc.objects.value;
    ObjectsTableRows(doc);
    forall row | row in ObjectAttributesTable(doc).value
      ensures exists p :: p in ObjectsTable(doc).value && p.objectId == row.objectId
    {
      FlatMapMember(os, ObjectAttributeRowsOf, row);
      var i :| 0 <= i < |os| && row in ObjectAttributeRowsOf(os[i]).value;
      ObjectAttributeRowsOfAttributes(os[i]);
      assert ObjectsTable(doc).value[i].objectId == row.objectId;
    }
  }

  lemma ObjectRelationshipParentsExist(doc: Document)
    requires ObjectsTable(doc).Ok? && ObjectRelationshipsTable(doc).Ok?
    ensures forall row :: row in ObjectRelationshipsTable(doc).value ==>
              exists p :: p in ObjectsTable(doc).value && p.objectId == row.parentId
  {
    var os := doc.objects.value;
    ObjectsTableRows(doc);
    forall row | row in ObjectRelationshipsTable(doc).value
      ensures exists p :: p in ObjectsTable(doc).value && p.objectId == row.parentId
    {
      FlatMapMember(os, ObjectRelationshipRowsOf, row);
      var i :| 0 <= i < |os| && row in ObjectRelationshipRowsOf(os[i]).value;
      ObjectRelationshipRowsOfRelationships(os[i]);
      assert ObjectsTable(doc).value[i].objectId == row.parentId;
    }
  }

  lemma EventAttributeParentsExist(doc: Document)
    requires EventsTable(doc).Ok? && EventAttributesTable(doc).Ok?
    ensures forall row :: row in EventAttributesTable(doc).value ==>
              exists p :: p in EventsTable(doc).value && p.eventId == row.eventId
  {
    var es := doc.events.value;
    EventsTableRows(doc);
    forall row | row in EventAttributesTable(doc).value
      ensures exists p :: p in EventsTable(doc).value && p.eventId == row.eventId
    {
      FlatMapMember(es, EventAttributeRowsOf, row);
      var i :| 0 <= i < |es| && row in EventAttributeRowsOf(es[i]).value;
      EventAttributeRowsOfAttributes(es[i]);
      assert EventsTable(doc).value[i].eventId == row.eventId;
    }
  }

  lemma EventRelationshipParentsExist(doc: Document)
    requires EventsTable(doc).Ok? && EventObjectRelationshipsTable(doc).Ok?
    ensures forall row :: row in EventObjectRelationshipsTable(doc).value ==>
              exists p :: p in EventsTable(doc).value && p.eventId == row.parentId
  {
    var es := doc.events.value;
    EventsTableRows(doc);
    forall row | row in EventObjectRelationshipsTable(doc).value
      ensures exists p :: p in EventsTable(doc).value && p.eventId == row.parentId
    {
      FlatMapMember(es, EventRelationshipRowsOf, row);
      var i :| 0 <= i < |es| && row in EventRelationshipRowsOf(es[i]).value;
      EventRelationshipRowsOfRelationships(es[i]);
      assert EventsTable(doc).value[i].eventId == row.parentId;
    }
  }

  // ---------------------------------------------------------------------------
  // A minimal document: one object and one event, no types, no nested lists.

  lemma MinimalDocumentTables()
    ensures var doc := Document(
        Some([]), Some([]),
        Some([OcelObject(Some("o1"), Some("order"), None, None)]),
        Some([OcelEvent(Some("e1"), Some("place"), Some("2024-01-01T00:00:00Z"), None, None)]));
      && ObjectsTable(doc) == Ok([ObjectRow("o1", "order")])
      && EventsTable(doc) == Ok([EventRow("e1", "place", "2024-01-01T00:00:00Z")])
      && ObjectTypesTable(doc) == Ok([]) && EventTypesTable(doc) == Ok([])
      && ObjectAttributesTable(doc) == Ok([]) && ObjectRelationshipsTable(doc) == Ok([])
      && EventAttributesTable(doc) == Ok([]) && EventObjectRelationshipsTable(doc) == Ok([])
  {
    var o := OcelObject(Some("o1"), Some("order"), None, None);
    var e := OcelEvent(Some("e1"), Some("place"), Some("2024-01-01T00:00:00Z"), None, None);
    var doc := Document(Some([]), Some([]), Some([o]), Some([e]));
    assert [o][..0] == [] && [e][..0] == [];
    var objectRow := ObjectRow("o1", "order");
    var eventRow := EventRow("e1", "place", "2024-01-01T00:00:00Z");
    var noObjectRows: seq<ObjectRow> := [];
    var noEventRows: seq<EventRow> := [];
    var noObjectAttributeRows: seq<ObjectAttributeRow> := [];
    var noEventAttributeRows: seq<EventAttributeRow> := [];
    var noRelationshipRows: seq<RelationshipRow> := [];
    assert noObjectRows + [objectRow] == [objectRow];
    assert noEventRows + [eventRow] == [eventRow];
    assert noObjectAttributeRows + noObjectAttributeRows == [];
    assert noEventAttributeRows + noEventAttributeRows == [];
    assert noRelationshipRows + noRelationshipRows == [];
    assert FlatMap([o], ObjectRowsOf) == Ok(noObjectRows + [objectRow]);
    assert FlatMap([e], EventRowsOf) == Ok(noEventRows + [eventRow]);
    assert FlatMap([o], ObjectAttributeRowsOf) == Ok(noObjectAttributeRows + noObjectAttributeRows);
    assert FlatMap([o], ObjectRelationshipRowsOf) == Ok(noRelationshipRows + noRelationshipRows);
    assert FlatMap([e], EventAttributeRowsOf) == Ok(noEventAttributeRows + noEventAttributeRows);
    assert FlatMap([e], EventRelationshipRowsOf) == Ok(noRelationshipRows + noRelationshipRows);
  }
}
