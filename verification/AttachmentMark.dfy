/** The marker of packages/attachments/src/lifecycle.ts: a worklist over a JSON value that
    collects every attachmentId string. */
module AttachmentMark {

  datatype Field = Field(name: string, value: Json)

  datatype Json =
    | Null
    | Bool(b: bool)
    | Number(n: real)
    | String(s: string)
    | Array(items: seq<Json>)
    | Object(fields: seq<Field>)

  /** record.attachmentId, when it is a string. */
  function OwnId(fields: seq<Field>): set<string> {
    if fields == [] then {}
    else if fields[0].name == "attachmentId" then
      if fields[0].value.String? then {fields[0].value.s} else {}
    else OwnId(fields[1..])
  }

  /** The attachment ids anywhere inside a value. */
  function References(value: Json): set<string> {
    match value
    case Array(items) => ItemReferences(items)
    case Object(fields) => OwnId(fields) + FieldReferences(fields)
    case _ => {}
  }

  function ItemReferences(items: seq<Json>): set<string> {
    if items == [] then {} else References(items[0]) + ItemReferences(items[1..])
  }

  function FieldReferences(fields: seq<Field>): set<string> {
    if fields == [] then {} else References(fields[0].value) + FieldReferences(fields[1..])
  }

  function Size(value: Json): nat {
    match value
    case Array(items) => 1 + ItemsSize(items)
    case Object(fields) => 1 + FieldsSize(fields)
    case _ => 1
  }

  function ItemsSize(items: seq<Json>): nat {
    if items == [] then 0 else Size(items[0]) + ItemsSize(items[1..])
  }

  function FieldsSize(fields: seq<Field>): nat {
    if fields == [] then 0 else Size(fields[0].value) + FieldsSize(fields[1..])
  }

  lemma {:induction false} ItemsConcat(a: seq<Json>, b: seq<Json>)
    ensures ItemReferences(a + b) == ItemReferences(a) + ItemReferences(b)
    ensures ItemsSize(a + b) == ItemsSize(a) + ItemsSize(b)
  {
    if a == [] {
      assert a + b == b;
    } else {
      assert (a + b)[1..] == a[1..] + b;
      ItemsConcat(a[1..], b);
    }
  }

  function Values(fields: seq<Field>): seq<Json> {
    if fields == [] then [] else [fields[0].value] + Values(fields[1..])
  }

  lemma {:induction false} ValuesReferences(fields: seq<Field>)
    ensures ItemReferences(Values(fields)) == FieldReferences(fields)
    ensures ItemsSize(Values(fields)) == FieldsSize(fields)
  {
    if fields != [] {
      ValuesReferences(fields[1..]);
      assert Values(fields)[1..] == Values(fields[1..]);
    }
  }

  lemma LastItem(pending: seq<Json>)
    requires pending != []
    ensures var rest, item := pending[..|pending| - 1], pending[|pending| - 1];
            && ItemReferences(pending) == ItemReferences(rest) + References(item)
            && ItemsSize(pending) == ItemsSize(rest) + Size(item)
  {
    var rest, item := pending[..|pending| - 1], pending[|pending| - 1];
    assert pending == rest + [item];
    ItemsConcat(rest, [item]);
    assert [item][1..] == [];
  }

  /** mark: the worklist adds exactly the recursive set of ids, whatever was marked before. */
  method Mark(value: Json, before: set<string>) returns (ids: set<string>)
    ensures ids == before + References(value)
  {
    ids := before;
    var pending := [value];
    assert pending[1..] == [];
    assert ItemReferences(pending) == References(value) + ItemReferences([]);
    while |pending| > 0
      invariant ids + ItemReferences(pending) == before + References(value)
      decreases ItemsSize(pending)
    {
      LastItem(pending);
      var item := pending[|pending| - 1];
      pending := pending[..|pending| - 1];
      match item {
        case Array(items) =>
          ItemsConcat(pending, items);
          pending := pending + items;
        case Object(fields) =>
          ids := ids + OwnId(fields);
          ItemsConcat(pending, Values(fields));
          ValuesReferences(fields);
          pending := pending + Values(fields);
        case _ =>
      }
    }
  }

  /** An id is collected from a value exactly when some object inside the value carries it. */
  ghost predicate Inside(inner: Json, value: Json) {
    || inner == value
    || (value.Array? && exists i | 0 <= i < |value.items| :: Inside(inner, value.items[i]))
    || (value.Object? && exists i | 0 <= i < |value.fields| :: Inside(inner, value.fields[i].value))
  }

  /** The object's attachmentId is this string. */
  ghost predicate Owns(fields: seq<Field>, id: string) {
    exists i :: 0 <= i < |fields| && fields[i] == Field("attachmentId", String(id))
                && forall j | 0 <= j < i :: fields[j].name != "attachmentId"
  }

  lemma {:induction false} OwnIdExact(fields: seq<Field>, id: string)
    ensures id in OwnId(fields) <==> Owns(fields, id)
  {
    if fields != [] && fields[0].name != "attachmentId" {
      OwnIdExact(fields[1..], id);
      if i :| 0 <= i < |fields[1..]| && fields[1..][i] == Field("attachmentId", String(id))
              && forall j | 0 <= j < i :: fields[1..][j].name != "attachmentId" {
        assert fields[i + 1] == Field("attachmentId", String(id));
        assert forall j | 0 < j < i + 1 :: fields[j] == fields[1..][j - 1];
        assert Owns(fields, id);
      }
      if Owns(fields, id) {
        var i :| 0 <= i < |fields| && fields[i] == Field("attachmentId", String(id))
                 && forall j | 0 <= j < i :: fields[j].name != "attachmentId";
        assert fields[1..][i - 1] == Field("attachmentId", String(id));
      }
    }
  }

  ghost predicate Carries(value: Json, id: string) {
    exists inner :: Inside(inner, value) && inner.Object? && Owns(inner.fields, id)
  }

  lemma {:induction false} ReferencesAreCarried(value: Json, id: string)
    requires id in References(value)
    ensures Carries(value, id)
    decreases value, 1
  {
    match value {
      case Array(items) =>
        var i := ItemCarries(items, id);
        var inner :| Inside(inner, items[i]) && inner.Object? && Owns(inner.fields, id);
        assert Inside(inner, value);
      case Object(fields) =>
        if id in OwnId(fields) {
          OwnIdExact(fields, id);
          assert Inside(value, value);
        } else {
          var i := FieldCarries(fields, id);
          var inner :| Inside(inner, fields[i].value) && inner.Object? && Owns(inner.fields, id);
          assert Inside(inner, value);
        }
      case _ =>
    }
  }

  lemma {:induction false} ItemCarries(items: seq<Json>, id: string) returns (i: nat)
    requires id in ItemReferences(items)
    ensures i < |items| && Carries(items[i], id)
    decreases items, 0
  {
    if id in References(items[0]) {
      ReferencesAreCarried(items[0], id);
      i := 0;
    } else {
      var rest := ItemCarries(items[1..], id);
      i := rest + 1;
    }
  }

  lemma {:induction false} FieldCarries(fields: seq<Field>, id: string) returns (i: nat)
    requires id in FieldReferences(fields)
    ensures i < |fields| && Carries(fields[i].value, id)
    decreases fields, 0
  {
    if id in References(fields[0].value) {
      ReferencesAreCarried(fields[0].value, id);
      i := 0;
    } else {
      var rest := FieldCarries(fields[1..], id);
      i := rest + 1;
    }
  }

  lemma {:induction false} CarriedIsReferenced(value: Json, inner: Json, id: string)
    requires Inside(inner, value) && inner.Object? && Owns(inner.fields, id)
    ensures id in References(value)
  {
    OwnIdExact(inner.fields, id);
    if inner != value {
      if value.Array? {
        var i :| 0 <= i < |value.items| && Inside(inner, value.items[i]);
        CarriedIsReferenced(value.items[i], inner, id);
        ItemReferenced(value.items, i, id);
      } else {
        var i :| 0 <= i < |value.fields| && Inside(inner, value.fields[i].value);
        CarriedIsReferenced(value.fields[i].value, inner, id);
        FieldReferenced(value.fields, i, id);
      }
    }
  }

  lemma {:induction false} ItemReferenced(items: seq<Json>, i: nat, id: string)
    requires i < |items| && id in References(items[i])
    ensures id in ItemReferences(items)
  {
    if i > 0 {
      ItemReferenced(items[1..], i - 1, id);
    }
  }

  lemma {:induction false} FieldReferenced(fields: seq<Field>, i: nat, id: string)
    requires i < |fields| && id in References(fields[i].value)
    ensures id in FieldReferences(fields)
  {
    if i > 0 {
      FieldReferenced(fields[1..], i - 1, id);
    }
  }

  /** The recursive set is exactly the ids carried somewhere in the value. */
  lemma ReferencesExact(value: Json, id: string)
    ensures id in References(value) <==> Carries(value, id)
  {
    if id in References(value) {
      ReferencesAreCarried(value, id);
    }
    if inner :| Inside(inner, value) && inner.Object? && Owns(inner.fields, id) {
      CarriedIsReferenced(value, inner, id);
    }
  }
}
