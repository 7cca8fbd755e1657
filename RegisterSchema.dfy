/**
 * Schema registration (`registerGraphQLSchema`): reset the type registry,
 * start empty Query and Mutation maps, register the collections and then
 * the globals, write `Access`, and spread the user's custom queries and
 * mutations over the generated ones.
 *
 * `RegisteredSchema` is the specification of the whole sequence; the
 * method `RegisterGraphQLSchema` is proved to leave the `payload` object in
 * that state, and the lemmas state what the sequence promises.
 */
module RegisterSchema {
  import opened Common
  import opened Fields
  import opened GraphQL
  import opened Payload
  import opened CollectionsInit
  import opened CollectionsProps

  /**
   * The type registry after the reset: five empty sub-registries, and the
   * two locale input types exactly when localization is configured.
   */
  function ResetTypes(localization: Option<Localization>): (t: TypeRegistry)
    ensures t.arrayTypes == map[] && t.blockInputTypes == map[] && t.blockTypes == map[]
    ensures t.groupTypes == map[] && t.tabTypes == map[]
    ensures t.localeInputType != Undefined <==> localization.Some?
    ensures t.fallbackLocaleInputType != Undefined <==> localization.Some?
    ensures localization.Some? ==>
              t.localeInputType == LocaleInput(localization.value.locales)
              && t.fallbackLocaleInputType == FallbackLocaleInput(localization.value.locales)
  {
    var empty := TypeRegistry(map[], map[], map[], map[], map[], Undefined, Undefined);
    if localization.Some?
    then empty.(localeInputType := LocaleInput(localization.value.locales),
                fallbackLocaleInputType := FallbackLocaleInput(localization.value.locales))
    else empty
  }

  /** What a `queries` / `mutations` setting contributes: nothing unless it is a function returning fields. */
  function CustomResult(custom: CustomFields, queries: FieldMap, mutations: FieldMap): (r: Option<FieldMap>)
    ensures custom.NotAFunction? ==> r.None?
  {
    match custom
    case NotAFunction => None
    case CustomFunction(fn) => fn(queries, mutations)
  }

  /** The `payload` fields schema registration leaves behind. */
  datatype Schema = Schema(types: TypeRegistry, collections: seq<Collection>, query: FieldMap, mutation: FieldMap)

  /** The Query map after collections, globals and `Access`, before the custom queries. */
  function GeneratedQuery(env: Collaborators, config: Config, cs: seq<Collection>): FieldMap {
    var r := RegisterAll(env, config.localization, ResetTypes(config.localization), cs, map[], map[]);
    Apply(r.query, env.globalQueryEntries)["Access" := AccessField(Policies)]
  }

  /** The Mutation map after collections and globals, before the custom mutations. */
  function GeneratedMutation(env: Collaborators, config: Config, cs: seq<Collection>): FieldMap {
    var r := RegisterAll(env, config.localization, ResetTypes(config.localization), cs, map[], map[]);
    Apply(r.mutation, env.globalMutationEntries)
  }

  /** The final Query map: the generated one with the custom queries spread over it. */
  function FinalQuery(env: Collaborators, config: Config, cs: seq<Collection>): FieldMap {
    var q := GeneratedQuery(env, config, cs);
    Merge(q, CustomResult(config.graphQL.queries, q, GeneratedMutation(env, config, cs)))
  }

  /** The final Mutation map: the generated one with the custom mutations spread over it. */
  function FinalMutation(env: Collaborators, config: Config, cs: seq<Collection>): FieldMap {
    var m := GeneratedMutation(env, config, cs);
    Merge(m, CustomResult(config.graphQL.mutations, FinalQuery(env, config, cs), m))
  }

  /** The whole of `registerGraphQLSchema` for a configuration and a collection registry. */
  function RegisteredSchema(env: Collaborators, config: Config, cs: seq<Collection>): Schema {
    var types := ResetTypes(config.localization);
    var r := RegisterAll(env, config.localization, types, cs, map[], map[]);
    Schema(types, r.collections, FinalQuery(env, config, cs), FinalMutation(env, config, cs))
  }

  /** The custom queries the configuration contributes, given the generated maps. */
  function CustomQueries(env: Collaborators, config: Config, cs: seq<Collection>): Option<FieldMap> {
    CustomResult(config.graphQL.queries, GeneratedQuery(env, config, cs), GeneratedMutation(env, config, cs))
  }

  /** The custom mutations the configuration contributes, given the final Query map. */
  function CustomMutations(env: Collaborators, config: Config, cs: seq<Collection>): Option<FieldMap> {
    CustomResult(config.graphQL.mutations, FinalQuery(env, config, cs), GeneratedMutation(env, config, cs))
  }

  /* --------------------------------------------------------------- lemmas */

  /**
   * `Access` is always a Query field. It is the policies field, whatever
   * collections or globals wrote under that name, unless the custom
   * queries replace it with something else.
   */
  lemma AccessEntry(env: Collaborators, config: Config, cs: seq<Collection>)
    ensures "Access" in FinalQuery(env, config, cs)
    ensures var cq := CustomQueries(env, config, cs);
      FinalQuery(env, config, cs)["Access"] == AccessField(Policies)
      <==> cq.None? || "Access" !in cq.value || cq.value["Access"] == AccessField(Policies)
  {
  }

  /**
   * The keys of the final Query map: `Access`, the keys the globals write,
   * the query names of the enabled collections, and the custom keys.
   */
  lemma FinalQueryKeys(env: Collaborators, config: Config, cs: seq<Collection>, k: string)
    ensures var cq := CustomQueries(env, config, cs);
      k in FinalQuery(env, config, cs)
      <==> k == "Access" || k in EntryKeys(env.globalQueryEntries)
           || (exists j :: 0 <= j < |cs| && RegistersQuery(env, cs[j], k))
           || (cq.Some? && k in cq.value)
  {
    var types := ResetTypes(config.localization);
    var r := RegisterAll(env, config.localization, types, cs, map[], map[]);
    RegisterAllQueryKeys(env, config.localization, types, cs, map[], map[], k);
    ApplyKeys(r.query, env.globalQueryEntries);
  }

  /**
   * The keys of the final Mutation map: the keys the globals write, the
   * mutation names of the enabled collections, and the custom keys.
   */
  lemma FinalMutationKeys(env: Collaborators, config: Config, cs: seq<Collection>, k: string)
    ensures var cm := CustomMutations(env, config, cs);
      k in FinalMutation(env, config, cs)
      <==> k in EntryKeys(env.globalMutationEntries)
           || (exists j :: 0 <= j < |cs| && RegistersMutation(env, cs[j], k))
           || (cm.Some? && k in cm.value)
  {
    var types := ResetTypes(config.localization);
    var r := RegisterAll(env, config.localization, types, cs, map[], map[]);
    RegisterAllMutationKeys(env, config.localization, types, cs, map[], map[], k);
    ApplyKeys(r.mutation, env.globalMutationEntries);
  }

  /**
   * A mutation of collection `j` reaches the schema with its own
   * definition unless a later collection, a global or the custom mutations
   * write the same name: collections come first, then globals, then the
   * custom spread.
   */
  lemma MutationReachesSchema(env: Collaborators, config: Config, cs: seq<Collection>, j: nat, op: Operation)
    requires j < |cs| && Enabled(cs[j]) && op in MutationOps(cs[j].config)
    requires var k := OperationName(op, NamesOf(env, cs[j]), env.formatName);
      && (forall l :: j < l < |cs| ==> !RegistersMutation(env, cs[l], k))
      && k !in EntryKeys(env.globalMutationEntries)
      && (CustomMutations(env, config, cs).None? || k !in CustomMutations(env, config, cs).value)
    ensures var k := OperationName(op, NamesOf(env, cs[j]), env.formatName);
      && k in FinalMutation(env, config, cs)
      && FinalMutation(env, config, cs)[k]
         == Definition(op, ContextOf(env, config.localization, ResetTypes(config.localization), cs[j]))
  {
    var types := ResetTypes(config.localization);
    var r := RegisterAll(env, config.localization, types, cs, map[], map[]);
    var k := OperationName(op, NamesOf(env, cs[j]), env.formatName);
    MutationSurvives(env, config.localization, types, cs, map[], map[], j, op);
    ApplyUntouched(r.mutation, env.globalMutationEntries, k);
  }

  /**
   * A Query field a collection registered reaches the schema unchanged
   * unless it is `Access`, a global writes it, or the custom queries do.
   */
  lemma CollectionQueryReachesSchema(env: Collaborators, config: Config, cs: seq<Collection>, k: string)
    requires var r := RegisterAll(env, config.localization, ResetTypes(config.localization), cs, map[], map[]);
      k in r.query
    requires k != "Access" && k !in EntryKeys(env.globalQueryEntries)
    requires CustomQueries(env, config, cs).None? || k !in CustomQueries(env, config, cs).value
    ensures var r := RegisterAll(env, config.localization, ResetTypes(config.localization), cs, map[], map[]);
      k in FinalQuery(env, config, cs) && FinalQuery(env, config, cs)[k] == r.query[k]
  {
    var r := RegisterAll(env, config.localization, ResetTypes(config.localization), cs, map[], map[]);
    ApplyUntouched(r.query, env.globalQueryEntries, k);
  }

  /**
   * The globals are written after the collections: a global Mutation entry
   * that no later global re-uses and the custom mutations do not replace
   * is what the schema holds under its key, whatever a collection wrote there.
   */
  lemma GlobalMutationWins(env: Collaborators, config: Config, cs: seq<Collection>, i: nat)
    requires i < |env.globalMutationEntries|
    requires var e := env.globalMutationEntries;
      forall j :: i < j < |e| ==> e[j].key != e[i].key
    requires var k := env.globalMutationEntries[i].key;
      CustomMutations(env, config, cs).None? || k !in CustomMutations(env, config, cs).value
    ensures var e := env.globalMutationEntries[i];
      e.key in FinalMutation(env, config, cs) && FinalMutation(env, config, cs)[e.key] == e.def
  {
    var r := RegisterAll(env, config.localization, ResetTypes(config.localization), cs, map[], map[]);
    ApplyLastWins(r.mutation, env.globalMutationEntries, i);
  }

  /**
   * The same order for Query: a global entry other than `Access`, not
   * re-used by a later global and not replaced by the custom queries, is
   * what the schema holds under its key, whatever a collection wrote there.
   */
  lemma GlobalQueryWins(env: Collaborators, config: Config, cs: seq<Collection>, i: nat)
    requires i < |env.globalQueryEntries|
    requires var e := env.globalQueryEntries;
      forall j :: i < j < |e| ==> e[j].key != e[i].key
    requires var k := env.globalQueryEntries[i].key;
      k != "Access" && (CustomQueries(env, config, cs).None? || k !in CustomQueries(env, config, cs).value)
    ensures var e := env.globalQueryEntries[i];
      e.key in FinalQuery(env, config, cs) && FinalQuery(env, config, cs)[e.key] == e.def
  {
    var r := RegisterAll(env, config.localization, ResetTypes(config.localization), cs, map[], map[]);
    ApplyLastWins(r.query, env.globalQueryEntries, i);
  }

  /** The custom mutations never change the Query map. */
  lemma MutationsLeaveQueryAlone(env: Collaborators, config: Config, cs: seq<Collection>, mutations: CustomFields)
    ensures FinalQuery(env, config.(graphQL := config.graphQL.(mutations := mutations)), cs) == FinalQuery(env, config, cs)
  {
  }

  /** Without custom mutations, the custom queries never change the Mutation map. */
  lemma QueriesLeaveMutationAlone(env: Collaborators, config: Config, cs: seq<Collection>, queries: CustomFields)
    requires config.graphQL.mutations.NotAFunction?
    ensures FinalMutation(env, config.(graphQL := config.graphQL.(queries := queries)), cs)
         == FinalMutation(env, config, cs)
         == GeneratedMutation(env, config, cs)
  {
  }

  /**
   * With no enabled collection, no global entries and no custom fields,
   * the schema holds `Access` alone, and the collections are unchanged.
   */
  lemma EmptySchema(env: Collaborators, config: Config, cs: seq<Collection>)
    requires forall j :: 0 <= j < |cs| ==> !Enabled(cs[j])
    requires env.globalQueryEntries == [] && env.globalMutationEntries == []
    requires config.graphQL.queries.NotAFunction? && config.graphQL.mutations.NotAFunction?
    ensures var s := RegisteredSchema(env, config, cs);
      && s.collections == cs
      && s.query == map["Access" := AccessField(Policies)]
      && s.mutation == map[]
  {
    RegisterAllDisabled(env, config.localization, ResetTypes(config.localization), cs, map[], map[]);
  }

  /* -------------------------------------------------------------- methods */

  /**
   * The global registration, whose code is not part of this model: it
   * writes the collaborator's global entries into the two maps, in order.
   */
  method InitGlobalsGraphQL(p: Payload, env: Collaborators)
    modifies p
    ensures p.query == old(p.query).(fields := Apply(old(p.query.fields), env.globalQueryEntries))
    ensures p.mutation == old(p.mutation).(fields := Apply(old(p.mutation.fields), env.globalMutationEntries))
    ensures p.collections == old(p.collections) && p.types == old(p.types)
  {
    var queries := env.globalQueryEntries;
    var i := 0;
    while i < |queries|
      invariant 0 <= i <= |queries|
      invariant p.query == old(p.query).(fields := Apply(old(p.query.fields), queries[..i]))
      invariant p.mutation == old(p.mutation)
      invariant p.collections == old(p.collections) && p.types == old(p.types)
    {
      assert queries[..i + 1][..i] == queries[..i];
      p.query := p.query.(fields := p.query.fields[queries[i].key := queries[i].def]);
      i := i + 1;
    }
    assert queries[..i] == queries;
    var mutations := env.globalMutationEntries;
    var j := 0;
    while j < |mutations|
      invariant 0 <= j <= |mutations|
      invariant p.query == old(p.query).(fields := Apply(old(p.query.fields), queries))
      invariant p.mutation == old(p.mutation).(fields := Apply(old(p.mutation.fields), mutations[..j]))
      invariant p.collections == old(p.collections) && p.types == old(p.types)
    {
      assert mutations[..j + 1][..j] == mutations[..j];
      p.mutation := p.mutation.(fields := p.mutation.fields[mutations[j].key := mutations[j].def]);
      j := j + 1;
    }
    assert mutations[..j] == mutations;
  }

  /**
   * The fresh type registry, built step by step as the code does: the
   * imperative mirror of `ResetTypes`, which is its one definition.
   */
  method ResetTypeRegistry(localization: Option<Localization>) returns (types: TypeRegistry)
    ensures types == ResetTypes(localization)
  {
    types := TypeRegistry(map[], map[], map[], map[], map[], Undefined, Undefined);
    if localization.Some? {
      types := types.(localeInputType := LocaleInput(localization.value.locales),
                      fallbackLocaleInputType := FallbackLocaleInput(localization.value.locales));
    }
  }

  /** `registerGraphQLSchema`: the state it leaves depends only on the configuration and the collections. */
  method RegisterGraphQLSchema(p: Payload, env: Collaborators)
    modifies p
    ensures var s := RegisteredSchema(env, p.config, old(p.collections));
      && p.types == s.types
      && p.collections == s.collections
      && p.query == RootType("Query", s.query)
      && p.mutation == RootType("Mutation", s.mutation)
  {
    var types := ResetTypeRegistry(p.config.localization);
    ghost var cs := p.collections;
    p.types := types;
    p.query := RootType("Query", map[]);
    p.mutation := RootType("Mutation", map[]);

    InitCollectionsGraphQL(p, env);
    ghost var r := RegisterAll(env, p.config.localization, types, cs, map[], map[]);
    assert p.collections == r.collections && p.query.fields == r.query && p.mutation.fields == r.mutation;
    InitGlobalsGraphQL(p, env);

    p.query := p.query.(fields := p.query.fields["Access" := AccessField(Policies)]);
    assert p.query.fields == GeneratedQuery(env, p.config, cs);
    assert p.mutation.fields == GeneratedMutation(env, p.config, cs);

    var queries, mutations := SpreadCustomFields(p.config.graphQL, p.query.fields, p.mutation.fields);
    p.query := p.query.(fields := queries);
    p.mutation := p.mutation.(fields := mutations);
  }

  /**
   * The custom `queries` and `mutations` settings, each called with the
   * current Query and Mutation maps and spread over them; the custom
   * mutations see the Query map the custom queries left.
   */
  method SpreadCustomFields(graphQL: GraphQLConfig, queryFields: FieldMap, mutationFields: FieldMap)
    returns (queries: FieldMap, mutations: FieldMap)
    ensures queries == Merge(queryFields, CustomResult(graphQL.queries, queryFields, mutationFields))
    ensures mutations == Merge(mutationFields, CustomResult(graphQL.mutations, queries, mutationFields))
  {
    queries, mutations := queryFields, mutationFields;
    if graphQL.queries.CustomFunction? {
      var customQueries := graphQL.queries.fn(queries, mutations);
      queries := Merge(queries, customQueries);
    }

    if graphQL.mutations.CustomFunction? {
      var customMutations := graphQL.mutations.fn(queries, mutations);
      mutations := Merge(mutations, customMutations);
    }
  }
}
