/**
 * The parsed OCEL 2.0 JSON document, as the flattener reads it.
 *
 * Every key the flattener indexes directly (`d['k']`) is an `Option`, so that a
 * document missing it can be represented; the flattener then fails with a
 * KeyError naming that key. Keys it reads with `.get` are optional in the
 * format itself.
 */
module OcelDocument {
  import opened Wrappers
  import PythonStr

  /** A JSON attribute value: string, integer or boolean. */
  datatype Value = Str(s: string) | Int(i: int) | Bool(b: bool)

  /** `{"name": ..., "type": ...}` inside an object or event type. */
  datatype AttributeDecl = AttributeDecl(name: Option<string>, typ: Option<string>)

  /** An entry of `objectTypes` or `eventTypes`. */
  datatype ElementType = ElementType(name: Option<string>, attributes: Option<seq<AttributeDecl>>)

  /** `{"name": ..., "value": ..., "time": ...}` inside an object or event. */
  datatype AttributeValue = AttributeValue(name: Option<string>, value: Option<Value>, time: Option<string>)

  /** `{"objectId": ..., "qualifier": ...}` inside an object or event. */
  datatype Relationship = Relationship(objectId: Option<string>, qualifier: Option<string>)

  datatype OcelObject = OcelObject(
    id: Option<string>,
    typ: Option<string>,
    attributes: Option<seq<AttributeValue>>,
    relationships: Option<seq<Relationship>>)

  datatype OcelEvent = OcelEvent(
    id: Option<string>,
    typ: Option<string>,
    time: Option<string>,
    attributes: Option<seq<AttributeValue>>,
    relationships: Option<seq<Relationship>>)

  datatype Document = Document(
    objectTypes: Option<seq<ElementType>>,
    eventTypes: Option<seq<ElementType>>,
    objects: Option<seq<OcelObject>>,
    events: Option<seq<OcelEvent>>)

  /** The KeyError raised when the flattener indexes a key the document lacks. */
  datatype SchemaError = MissingKey(key: string)

  /** Python's `str(value)`. */
  function Stringify(v: Value): (r: string)
    ensures v.Str? ==> r == v.s
    ensures v.Bool? ==> r == (if v.b then "True" else "False")
  {
    match v
    case Str(s) => s
    case Int(i) => PythonStr.IntToDecimal(i)
    case Bool(b) => if b then "True" else "False"
  }

  /** Integer values keep their identity through rendering: the stored text determines the number. */
  lemma StringifyIntInjective(a: int, b: int)
    requires Stringify(Int(a)) == Stringify(Int(b))
    ensures a == b
  {
    PythonStr.IntToDecimalInjective(a, b);
  }

  /** A boolean never renders like an integer, so the two kinds stay apart in the text column. */
  lemma StringifyBoolIsNotInt(b: bool, i: int)
    ensures Stringify(Bool(b)) != Stringify(Int(i))
  {
    var s := PythonStr.IntToDecimal(i);
    if i < 0 {
      assert s[1..] == PythonStr.NatToDecimal(-i);
      assert PythonStr.IsDigit(s[1..][0]);
    } else {
      assert PythonStr.IsDigit(s[0]);
    }
  }
}
