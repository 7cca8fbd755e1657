/**
 * GraphQL values produced during schema registration. The type builders
 * are not part of this model: each builder call is a free constructor of
 * `GqlType` that records the arguments it was given, so two calls are
 * equal exactly when their arguments are. Root Query and Mutation objects
 * hold a name and a map from operation name to field definition.
 */
module GraphQL {
  import opened Common
  import opened Fields

  datatype GqlType =
    | Undefined                    // an unset slot, JavaScript `undefined`
    | Boolean | Int | String       // GraphQLBoolean, GraphQLInt, GraphQLString
    | IdScalar(name: string)       // the identifier scalar an adapter declares
    | NonNull(ofType: GqlType)
    | ObjectType(name: string, parentName: string, fields: seq<Field>,
                 baseFields: map<string, GqlType>, forceNullable: bool)
    | PaginatedList(name: string, docType: GqlType)
    | WhereInput(name: string, fields: seq<Field>, parentName: string)
    | MutationInput(name: string, fields: seq<Field>, parentName: string, forceNullable: bool)
    | Policy(entity: string, scope: string, entityKind: string, typeSuffix: string)
    | Inline(name: string, members: map<string, GqlType>)   // `new GraphQLObjectType({...})`
    | LocaleInput(locales: seq<string>)
    | FallbackLocaleInput(locales: seq<string>)
    | Policies                     // buildPoliciesType(payload)

  /** `payload.types`: the type registry and the two locale input types. */
  datatype TypeRegistry = TypeRegistry(
    arrayTypes: map<string, GqlType>,
    blockInputTypes: map<string, GqlType>,
    blockTypes: map<string, GqlType>,
    groupTypes: map<string, GqlType>,
    tabTypes: map<string, GqlType>,
    localeInputType: GqlType,
    fallbackLocaleInputType: GqlType)

  /** The operations a collection can register, one per resolver factory. */
  datatype Operation =
    | FindByID | Find | DocAccess | Create | Update | Delete
    | FindVersionByID | FindVersions | RestoreVersion
    | Me | Init | Refresh | Logout | Unlock | Login | ForgotPassword | ResetPassword | VerifyEmail

  /**
   * A root field definition. A generated one records its operation, the
   * collection whose resolver it binds, its arguments and its type; the
   * resolver closures themselves are not modelled.
   */
  datatype FieldDef =
    | Generated(op: Operation, owner: string, args: map<string, GqlType>, result: GqlType)
    | AccessField(result: GqlType)

  type FieldMap = map<string, FieldDef>

  /** `payload.Query` / `payload.Mutation`: `{ fields, name }`. */
  datatype RootType = RootType(name: string, fields: FieldMap)

  datatype Entry = Entry(key: string, def: FieldDef)

  /** The map after the assignments `m[e.key] = e.def` for each entry in order. */
  function Apply(m: FieldMap, entries: seq<Entry>): FieldMap
  {
    if |entries| == 0 then m
    else
      var last := entries[|entries| - 1];
      Apply(m, entries[..|entries| - 1])[last.key := last.def]
  }

  function EntryKeys(entries: seq<Entry>): set<string>
  {
    set e | e in entries :: e.key
  }

  /** Assignments only add keys: the keys are the old ones and the assigned ones. */
  lemma {:induction false} ApplyKeys(m: FieldMap, entries: seq<Entry>)
    ensures Apply(m, entries).Keys == m.Keys + EntryKeys(entries)
  {
    if |entries| > 0 {
      var init := entries[..|entries| - 1];
      ApplyKeys(m, init);
      assert entries == init + [entries[|entries| - 1]];
      assert EntryKeys(entries) == EntryKeys(init) + {entries[|entries| - 1].key};
    }
  }

  /** A key that no entry assigns keeps its old value (or stays absent). */
  lemma {:induction false} ApplyUntouched(m: FieldMap, entries: seq<Entry>, k: string)
    requires k !in EntryKeys(entries)
    ensures k in Apply(m, entries) <==> k in m
    ensures k in m ==> Apply(m, entries)[k] == m[k]
  {
    if |entries| > 0 {
      var init := entries[..|entries| - 1];
      assert EntryKeys(init) <= EntryKeys(entries);
      ApplyUntouched(m, init, k);
    }
  }

  /** The value at an assigned key is the one of the last entry that assigns it. */
  lemma {:induction false} ApplyLastWins(m: FieldMap, entries: seq<Entry>, i: nat)
    requires i < |entries|
    requires forall j :: i < j < |entries| ==> entries[j].key != entries[i].key
    ensures entries[i].key in Apply(m, entries)
    ensures Apply(m, entries)[entries[i].key] == entries[i].def
  {
    var init := entries[..|entries| - 1];
    if i < |entries| - 1 {
      ApplyLastWins(m, init, i);
    }
  }

  /** `{ ...base, ...(custom || {}) }`: JavaScript spread, the later object wins. */
  function Merge(base: FieldMap, custom: Option<FieldMap>): (r: FieldMap)
    ensures custom.None? ==> r == base
    ensures custom.Some? ==> r.Keys == base.Keys + custom.value.Keys
    ensures custom.Some? ==> forall k :: k in custom.value ==> r[k] == custom.value[k]
    ensures forall k :: k in base && (custom.None? || k !in custom.value) ==> r[k] == base[k]
  {
    match custom
    case None => base
    case Some(extra) => base + extra
  }
}
