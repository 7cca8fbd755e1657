/**
 * Field descriptors of a collection, as far as collection registration
 * looks at them: whether a field affects data, whether it is the `id`
 * field, and the order-preserving filters applied to field lists.
 */
module Fields {
  import opened Common

  datatype FieldType =
    | Text | Email | Textarea | Number | Date | Checkbox | Select | Radio
    | Code | Json | RichText | Point | Relationship | Upload
    | Group | Array | Blocks | Row | Collapsible | Tabs | UI

  /** One field descriptor. Layout-only fields (`row`, `collapsible`) carry no name. */
  datatype Field = Field(
    name: Option<string>,
    fieldType: FieldType,
    required: bool,
    localized: bool,
    saveToJWT: bool,
    fieldLabel: Option<string>)

  /** A field stores data when it has a name and is not presentational only (`ui`). */
  predicate FieldAffectsData(f: Field) {
    f.name.Some? && f.fieldType != UI
  }

  /** `fieldAffectsData(field) && field.name === 'id'` */
  predicate IsIdField(f: Field) {
    FieldAffectsData(f) && f.name == Some("id")
  }

  predicate IsJWTField(f: Field) {
    FieldAffectsData(f) && f.saveToJWT
  }

  /** A plain named field of the given type, as the source writes its object literals. */
  function NamedField(name: string, t: FieldType, required: bool, fieldLabel: Option<string>): (f: Field)
    ensures FieldAffectsData(f) <==> t != UI
    ensures f.name == Some(name) && !f.saveToJWT
  {
    Field(Some(name), t, required, false, false, fieldLabel)
  }

  /** `fields.find(...)`: the first field of `fields` that is the `id` field. */
  function FindIdField(fields: seq<Field>): (r: Option<Field>)
    ensures r.None? <==> forall i :: 0 <= i < |fields| ==> !IsIdField(fields[i])
    ensures r.Some? ==> exists k :: 0 <= k < |fields| && fields[k] == r.value && IsIdField(r.value)
                                   && forall j :: 0 <= j < k ==> !IsIdField(fields[j])
  {
    if |fields| == 0 then None
    else if IsIdField(fields[0]) then Some(fields[0])
    else
      var rest := FindIdField(fields[1..]);
      assert forall i :: 1 <= i < |fields| ==> fields[i] == fields[1..][i - 1];
      if rest.Some? then
        var k' :| 0 <= k' < |fields[1..]| && fields[1..][k'] == rest.value && IsIdField(rest.value)
                  && forall j :: 0 <= j < k' ==> !IsIdField(fields[1..][j]);
        assert fields[k' + 1] == rest.value;
        assert forall j :: 0 <= j < k' + 1 ==> !IsIdField(fields[j]) by {
          forall j | 0 <= j < k' + 1 ensures !IsIdField(fields[j]) {
            if j > 0 { assert fields[j] == fields[1..][j - 1]; }
          }
        }
        rest
      else
        rest
  }

  /** `Array.prototype.filter`: keeps, in order, the fields that satisfy `keep`. */
  function Filter(fields: seq<Field>, keep: Field -> bool): (r: seq<Field>)
    ensures |r| <= |fields|
    ensures forall f :: f in r <==> f in fields && keep(f)
  {
    if |fields| == 0 then []
    else
      var rest := Filter(fields[1..], keep);
      assert forall f :: f in fields <==> f == fields[0] || f in fields[1..];
      if keep(fields[0]) then [fields[0]] + rest else rest
  }

  /** Filtering a concatenation filters each part: the filter keeps the relative order. */
  lemma {:induction false} FilterAppend(a: seq<Field>, b: seq<Field>, keep: Field -> bool)
    ensures Filter(a + b, keep) == Filter(a, keep) + Filter(b, keep)
  {
    if |a| == 0 {
      assert a + b == b;
    } else {
      assert (a + b)[1..] == a[1..] + b;
      FilterAppend(a[1..], b, keep);
    }
  }

  /** A field list in which every field is kept is returned unchanged. */
  lemma {:induction false} FilterKeepsAll(fields: seq<Field>, keep: Field -> bool)
    requires forall i :: 0 <= i < |fields| ==> keep(fields[i])
    ensures Filter(fields, keep) == fields
  {
    if |fields| > 0 {
      FilterKeepsAll(fields[1..], keep);
    }
  }

  /** The update-input field list: every field except a data field named `id`. */
  function RemoveIdFields(fields: seq<Field>): (r: seq<Field>)
    ensures forall f :: f in r <==> f in fields && !IsIdField(f)
  {
    Filter(fields, f => !IsIdField(f))
  }

  /** The fields that go into the JWT: data fields flagged `saveToJWT`. */
  function JWTFields(fields: seq<Field>): (r: seq<Field>)
    ensures forall f :: f in r <==> f in fields && IsJWTField(f)
  {
    Filter(fields, IsJWTField)
  }
}
