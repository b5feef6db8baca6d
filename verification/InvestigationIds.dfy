/**
 * Which investigations a tool result mentions: the non-empty `investigation_id`
 * strings anywhere inside it.
 */
module InvestigationIds {

  /** A JSON value; the keys of an object are distinct. */
  datatype Json = Object(fields: seq<Field>) | Array(items: seq<Json>) | Text(text: string) | Scalar
  datatype Field = Field(name: string, value: Json)

  const ID: string := "investigation_id"

  /** `id` is named by `value` itself or by something inside it. */
  predicate Mentions(value: Json, id: string)
    decreases value
  {
    match value
    case Object(fields) =>
      exists i :: 0 <= i < |fields| && (Names(fields[i], id) || Mentions(fields[i].value, id))
    case Array(items) => exists i :: 0 <= i < |items| && Mentions(items[i], id)
    case Text(_) => false
    case Scalar => false
  }

  predicate Names(field: Field, id: string) {
    field.name == ID && field.value == Text(id) && id != ""
  }

  /** `inner` is `value` or lies somewhere inside it. */
  predicate Inside(inner: Json, value: Json)
    decreases value
  {
    || inner == value
    || match value
       case Object(fields) => exists i | 0 <= i < |fields| :: Inside(inner, fields[i].value)
       case Array(items) => exists i | 0 <= i < |items| :: Inside(inner, items[i])
       case _ => false
  }

  predicate Bears(value: Json, id: string) {
    value.Object? && Field("investigation_id", Text(id)) in value.fields
  }

  /** Mentioned is what stands, not empty, under `investigation_id` in some object inside the value. */
  lemma {:induction false} MentionsAreInside(value: Json, id: string)
    ensures Mentions(value, id) <==> id != "" && exists o :: Inside(o, value) && Bears(o, id)
    decreases value
  {
    match value
    case Object(fields) =>
      forall i | 0 <= i < |fields|
        ensures Mentions(fields[i].value, id) <==> id != "" && exists o :: Inside(o, fields[i].value) && Bears(o, id)
      {
        MentionsAreInside(fields[i].value, id);
      }
      if i :| 0 <= i < |fields| && Names(fields[i], id) {
        assert fields[i] == Field("investigation_id", Text(id)) && Inside(value, value) && Bears(value, id);
      }
      if i :| 0 <= i < |fields| && Mentions(fields[i].value, id) {
        var o :| Inside(o, fields[i].value) && Bears(o, id);
        assert Inside(o, value);
      }
      if o :| id != "" && Inside(o, value) && Bears(o, id) {
        if o == value {
          var i :| 0 <= i < |fields| && fields[i] == Field("investigation_id", Text(id));
          assert Names(fields[i], id);
        } else {
          var i :| 0 <= i < |fields| && Inside(o, fields[i].value);
          assert Mentions(fields[i].value, id);
        }
      }
    case Array(items) =>
      forall i | 0 <= i < |items|
        ensures Mentions(items[i], id) <==> id != "" && exists o :: Inside(o, items[i]) && Bears(o, id)
      {
        MentionsAreInside(items[i], id);
      }
      if i :| 0 <= i < |items| && Mentions(items[i], id) {
        var o :| Inside(o, items[i]) && Bears(o, id);
        assert Inside(o, value);
      }
    case _ =>
  }

  /** Exactly the mentioned ids, however deeply they are nested. */
  method Collect(value: Json) returns (found: set<string>)
    ensures forall id :: id in found <==> Mentions(value, id)
    decreases value
  {
    found := {};
    match value {
      case Object(fields) =>
        for i := 0 to |fields|
          invariant forall id :: id in found <==>
                      exists k :: 0 <= k < i && (Names(fields[k], id) || Mentions(fields[k].value, id))
        {
          if fields[i].name == ID && fields[i].value.Text? && fields[i].value.text != "" {
            found := found + {fields[i].value.text};
          }
          var inside := Collect(fields[i].value);
          found := found + inside;
        }
      case Array(items) =>
        for i := 0 to |items|
          invariant forall id :: id in found <==> exists k :: 0 <= k < i && Mentions(items[k], id)
        {
          var inside := Collect(items[i]);
          found := found + inside;
        }
      case _ =>
    }
  }
}
