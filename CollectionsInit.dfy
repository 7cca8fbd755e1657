/**
 * Collection registration (`initCollectionsGraphQL`): for each collection
 * of the registry, resolve its GraphQL names, build its types, append the
 * password field for local-strategy auth collections, and write its
 * operations into the root Query and Mutation field maps.
 *
 * The state-changing methods are proved against the specification
 * functions `InitializedCollection` and `ApplyOps`; the properties of the
 * registration are lemmas about those functions.
 */
module CollectionsInit {
  import opened Common
  import opened Fields
  import opened GraphQL
  import opened Payload

  /* ---------------------------------------------------------------- names */

  function SingularName(env: Collaborators, slug: string, overrides: GraphQLOverrides): string
    requires overrides.GraphQLEnabled?
  {
    if overrides.singularName != "" then env.toWords(overrides.singularName)
    else env.formatNames(slug).singular
  }

  function RequestedPluralName(env: Collaborators, slug: string, overrides: GraphQLOverrides): string
    requires overrides.GraphQLEnabled?
  {
    if overrides.pluralName != "" then env.toWords(overrides.pluralName)
    else env.formatNames(slug).plural
  }

  /**
   * The singular name is the override (through `toWords`) or the slug's
   * singular; the plural likewise, except that a plural equal to the
   * singular becomes `"all" + singular`. The two never coincide.
   */
  function ResolveNames(env: Collaborators, slug: string, overrides: GraphQLOverrides): (n: SlugNames)
    requires overrides.GraphQLEnabled?
    ensures n.singular == SingularName(env, slug, overrides)
    ensures n.singular != n.plural
    ensures n.plural == RequestedPluralName(env, slug, overrides) <==> RequestedPluralName(env, slug, overrides) != n.singular
    ensures n.plural != RequestedPluralName(env, slug, overrides) ==> n.plural == "all" + n.singular
  {
    var singular := SingularName(env, slug, overrides);
    var plural := RequestedPluralName(env, slug, overrides);
    if singular == plural then
      assert |"all" + singular| > |singular|;
      SlugNames(singular, "all" + singular)
    else SlugNames(singular, plural)
  }

  /* ---------------------------------------------------- fields and types */

  predicate LocalStrategy(config: CollectionConfig) {
    config.auth.Some? && !config.auth.value.disableLocalStrategy
  }

  predicate DraftsEnabled(config: CollectionConfig) {
    config.versions.Some? && config.versions.value.drafts
  }

  /** The required `password` field appended for local-strategy auth. */
  function PasswordField(): Field {
    NamedField("password", Text, true, Some("Password"))
  }

  /** The synthetic `id` entry of the where-input field list. */
  function IdWhereField(): Field {
    NamedField("id", Text, false, None)
  }

  /** The collection's own field list after registration. */
  function FieldsAfterInit(config: CollectionConfig): seq<Field> {
    if LocalStrategy(config) then config.fields + [PasswordField()] else config.fields
  }

  /** Version documents: the collection's version fields, then `id`, `createdAt`, `updatedAt`. */
  function VersionFields(env: Collaborators, config: CollectionConfig): seq<Field> {
    env.versionCollectionFields(config)
    + [NamedField("id", Text, false, None),
       NamedField("createdAt", Date, false, Some("Created At")),
       NamedField("updatedAt", Date, false, Some("Updated At"))]
  }

  /** The fields of the JWT type: the data fields saved to the token, `email` for local auth, `collection`. */
  function JWTTypeFields(config: CollectionConfig): seq<Field>
    requires config.auth.Some?
  {
    JWTFields(config.fields)
    + (if config.auth.value.disableLocalStrategy then [] else [NamedField("email", Email, true, None)])
    + [NamedField("collection", Text, true, None)]
  }

  /**
   * The types registration builds for an enabled collection, given its
   * configuration before registration and its resolved names.
   */
  function BuildCollectionGraphQL(env: Collaborators, config: CollectionConfig, names: SlugNames): CollectionGraphQL
    requires config.graphQL.GraphQLEnabled?
  {
    var s := names.singular;
    var hasId := FindIdField(config.fields).Some?;
    var objectType := ObjectType(s, s, config.fields,
                                 if hasId then map[] else map["id" := env.collectionIDType(config)],
                                 DraftsEnabled(config));
    var after := config.(fields := FieldsAfterInit(config));
    CollectionGraphQL(
      objectType,
      PaginatedList(names.plural, objectType),
      WhereInput(s, if hasId then config.fields else config.fields + [IdWhereField()], s),
      NonNull(MutationInput(s, after.fields, s, false)),
      NonNull(MutationInput(s + "Update", RemoveIdFields(after.fields), s + "Update", true)),
      if config.versions.Some?
      then Some(ObjectType(s + "Version", s + "Version", VersionFields(env, after), map[], DraftsEnabled(config)))
      else None,
      if config.auth.Some?
      then Some(ObjectType(env.formatName(config.slug + "JWT"), env.formatName(config.slug + "JWT"),
                           JWTTypeFields(after), map[], false))
      else None)
  }

  /** The collection as registration leaves it: fields extended, `graphQL` set; untouched when disabled. */
  function InitializedCollection(env: Collaborators, c: Collection): Collection {
    if c.config.graphQL.GraphQLDisabled? then c
    else
      var names := ResolveNames(env, c.config.slug, c.config.graphQL);
      Collection(c.config.(fields := FieldsAfterInit(c.config)),
                 Some(BuildCollectionGraphQL(env, c.config, names)))
  }

  /* ----------------------------------------------------------- operations */

  /** Everything a root field definition of a collection depends on. */
  datatype OpContext = OpContext(
    env: Collaborators,
    localization: Option<Localization>,
    types: TypeRegistry,
    config: CollectionConfig,       // after the password field was appended
    names: SlugNames,
    idType: GqlType,
    graphQL: CollectionGraphQL)

  /** `fallbackLocale` and `locale` arguments, present only with localization. */
  function LocaleArgs(ctx: OpContext): map<string, GqlType> {
    if ctx.localization.Some?
    then map["fallbackLocale" := ctx.types.fallbackLocaleInputType, "locale" := ctx.types.localeInputType]
    else map[]
  }

  /** The `locale` argument of create and update, present only with localization. */
  function LocaleArg(ctx: OpContext): map<string, GqlType> {
    if ctx.localization.Some? then map["locale" := ctx.types.localeInputType] else map[]
  }

  function ListArgs(): map<string, GqlType> {
    map["limit" := Int, "page" := Int, "sort" := String]
  }

  function OrUndefined(t: Option<GqlType>): GqlType {
    if t.Some? then t.value else Undefined
  }

  function FindByIDField(ctx: OpContext): FieldDef {
    Generated(FindByID, ctx.config.slug, map["draft" := Boolean, "id" := NonNull(ctx.idType)] + LocaleArgs(ctx),
              ctx.graphQL.objectType)
  }

  function FindField(ctx: OpContext): FieldDef {
    Generated(Find, ctx.config.slug,
              map["draft" := Boolean, "where" := ctx.graphQL.whereInputType] + LocaleArgs(ctx) + ListArgs(),
              PaginatedList(ctx.names.plural, ctx.graphQL.objectType))
  }

  function DocAccessField(ctx: OpContext): FieldDef {
    Generated(DocAccess, ctx.config.slug, map["id" := NonNull(ctx.idType)],
              Policy(ctx.config.slug, "docAccess", "collection", "DocAccess"))
  }

  function CreateField(ctx: OpContext): FieldDef {
    Generated(Create, ctx.config.slug,
              map["data" := ctx.graphQL.mutationInputType, "draft" := Boolean] + LocaleArg(ctx),
              ctx.graphQL.objectType)
  }

  function UpdateField(ctx: OpContext): FieldDef {
    Generated(Update, ctx.config.slug,
              map["autosave" := Boolean, "data" := ctx.graphQL.updateMutationInputType, "draft" := Boolean,
                  "id" := NonNull(ctx.idType)] + LocaleArg(ctx),
              ctx.graphQL.objectType)
  }

  function DeleteField(ctx: OpContext): FieldDef {
    Generated(Delete, ctx.config.slug, map["id" := NonNull(ctx.idType)], ctx.graphQL.objectType)
  }

  function FindVersionByIDField(ctx: OpContext): FieldDef {
    Generated(FindVersionByID, ctx.config.slug, map["id" := String] + LocaleArgs(ctx),
              OrUndefined(ctx.graphQL.versionType))
  }

  function FindVersionsField(ctx: OpContext): FieldDef {
    var name := "versions" + ctx.names.singular;
    Generated(FindVersions, ctx.config.slug,
              map["where" := WhereInput(name, VersionFields(ctx.env, ctx.config), name)] + LocaleArgs(ctx) + ListArgs(),
              PaginatedList("versions" + ctx.env.formatName(ctx.names.plural), OrUndefined(ctx.graphQL.versionType)))
  }

  function RestoreVersionField(ctx: OpContext): FieldDef {
    Generated(RestoreVersion, ctx.config.slug, map["id" := String], ctx.graphQL.objectType)
  }

  function MeField(ctx: OpContext): FieldDef {
    Generated(Me, ctx.config.slug, map[], Inline(ctx.env.formatName(ctx.config.slug + "Me"),
      map["collection" := String, "exp" := Int, "token" := String, "user" := ctx.graphQL.objectType]))
  }

  function InitField(ctx: OpContext): FieldDef {
    Generated(Init, ctx.config.slug, map[], Boolean)
  }

  function RefreshField(ctx: OpContext): FieldDef {
    Generated(Refresh, ctx.config.slug, map["token" := String],
      Inline(ctx.env.formatName(ctx.config.slug + "Refreshed" + ctx.names.singular),
             map["exp" := Int, "refreshedToken" := String, "user" := OrUndefined(ctx.graphQL.jwt)]))
  }

  function LogoutField(ctx: OpContext): FieldDef {
    Generated(Logout, ctx.config.slug, map[], String)
  }

  function UnlockField(ctx: OpContext): FieldDef {
    Generated(Unlock, ctx.config.slug, map["email" := NonNull(String)], NonNull(Boolean))
  }

  function LoginField(ctx: OpContext): FieldDef {
    Generated(Login, ctx.config.slug, map["email" := String, "password" := String],
      Inline(ctx.env.formatName(ctx.config.slug + "LoginResult"),
             map["exp" := Int, "token" := String, "user" := ctx.graphQL.objectType]))
  }

  function ForgotPasswordField(ctx: OpContext): FieldDef {
    Generated(ForgotPassword, ctx.config.slug,
              map["disableEmail" := Boolean, "email" := NonNull(String), "expiration" := Int], NonNull(Boolean))
  }

  function ResetPasswordField(ctx: OpContext): FieldDef {
    Generated(ResetPassword, ctx.config.slug, map["password" := String, "token" := String],
      Inline(ctx.env.formatName(ctx.config.slug + "ResetPassword"),
             map["token" := String, "user" := ctx.graphQL.objectType]))
  }

  function VerifyEmailField(ctx: OpContext): FieldDef {
    Generated(VerifyEmail, ctx.config.slug, map["token" := String], Boolean)
  }

  /** The root field definition registered for an operation of a collection. */
  function Definition(op: Operation, ctx: OpContext): FieldDef {
    match op
    case FindByID => FindByIDField(ctx)
    case Find => FindField(ctx)
    case DocAccess => DocAccessField(ctx)
    case Create => CreateField(ctx)
    case Update => UpdateField(ctx)
    case Delete => DeleteField(ctx)
    case FindVersionByID => FindVersionByIDField(ctx)
    case FindVersions => FindVersionsField(ctx)
    case RestoreVersion => RestoreVersionField(ctx)
    case Me => MeField(ctx)
    case Init => InitField(ctx)
    case Refresh => RefreshField(ctx)
    case Logout => LogoutField(ctx)
    case Unlock => UnlockField(ctx)
    case Login => LoginField(ctx)
    case ForgotPassword => ForgotPasswordField(ctx)
    case ResetPassword => ResetPasswordField(ctx)
    case VerifyEmail => VerifyEmailField(ctx)
  }

  /** The root field name of each operation, for singular name `S` and plural name `P`. */
  function OperationName(op: Operation, names: SlugNames, formatName: string -> string): string {
    var s, p := names.singular, names.plural;
    match op
    case FindByID => s
    case Find => p
    case DocAccess => "docAccess" + s
    case Create => "create" + s
    case Update => "update" + s
    case Delete => "delete" + s
    case FindVersionByID => "version" + formatName(s)
    case FindVersions => "versions" + p
    case RestoreVersion => "restoreVersion" + formatName(s)
    case Me => "me" + s
    case Init => "initialized" + s
    case Refresh => "refreshToken" + s
    case Logout => "logout" + s
    case Unlock => "unlock" + s
    case Login => "login" + s
    case ForgotPassword => "forgotPassword" + s
    case ResetPassword => "resetPassword" + s
    case VerifyEmail => "verifyEmail" + s
  }

  /** The operations every enabled collection registers: Query, then Mutation. */
  function BaseQueryOps(): seq<Operation> { [FindByID, Find, DocAccess] }
  function BaseMutationOps(): seq<Operation> { [Create, Update, Delete] }

  /** The operations of a versioned collection. */
  function VersionQueryOps(config: CollectionConfig): seq<Operation> {
    if config.versions.Some? then [FindVersionByID, FindVersions] else []
  }
  function VersionMutationOps(config: CollectionConfig): seq<Operation> {
    if config.versions.Some? then [RestoreVersion] else []
  }

  /** The operations of an auth collection; the local-strategy ones only without `disableLocalStrategy`. */
  function AuthQueryOps(config: CollectionConfig): seq<Operation> {
    if config.auth.Some? then [Me, Init] else []
  }
  function AuthMutationOps(config: CollectionConfig): seq<Operation> {
    if config.auth.Some? then [Refresh, Logout] + LocalStrategyOps(config) else []
  }

  /** The password-based operations; `unlock` only when `maxLoginAttempts > 0`. */
  function LocalStrategyOps(config: CollectionConfig): seq<Operation> {
    if LocalStrategy(config) then
      (if config.auth.value.maxLoginAttempts > 0 then [Unlock] else []) + PasswordOps()
    else []
  }

  function PasswordOps(): seq<Operation> { [Login, ForgotPassword, ResetPassword, VerifyEmail] }

  /** The Query operations of a collection, in the order the source writes them. */
  function QueryOps(config: CollectionConfig): seq<Operation> {
    BaseQueryOps() + VersionQueryOps(config) + AuthQueryOps(config)
  }

  /** The Mutation operations of a collection, in the order the source writes them. */
  function MutationOps(config: CollectionConfig): seq<Operation> {
    BaseMutationOps() + VersionMutationOps(config) + AuthMutationOps(config)
  }

  function Entries(ops: seq<Operation>, ctx: OpContext): (es: seq<Entry>)
    ensures |es| == |ops|
  {
    if |ops| == 0 then []
    else
      var last := ops[|ops| - 1];
      Entries(ops[..|ops| - 1], ctx) + [Entry(OperationName(last, ctx.names, ctx.env.formatName), Definition(last, ctx))]
  }

  /** The field map after writing the given operations of one collection, in order. */
  function ApplyOps(m: FieldMap, ops: seq<Operation>, ctx: OpContext): FieldMap {
    Apply(m, Entries(ops, ctx))
  }

  /** The context of the definitions registration writes for an enabled collection. */
  function ContextOf(env: Collaborators, localization: Option<Localization>, types: TypeRegistry, c: Collection): OpContext
    requires c.config.graphQL.GraphQLEnabled?
  {
    var names := ResolveNames(env, c.config.slug, c.config.graphQL);
    OpContext(env, localization, types, c.config.(fields := FieldsAfterInit(c.config)), names,
              env.collectionIDType(c.config), BuildCollectionGraphQL(env, c.config, names))
  }

  datatype Registration = Registration(collections: seq<Collection>, query: FieldMap, mutation: FieldMap)

  /** One step of the `forEach`: the collection and the two maps after registering `c`. */
  function RegisterCollection(env: Collaborators, localization: Option<Localization>, types: TypeRegistry,
                              c: Collection, q: FieldMap, m: FieldMap): (r: Registration)
    ensures r.collections == [InitializedCollection(env, c)]
  {
    if c.config.graphQL.GraphQLDisabled? then Registration([c], q, m)
    else
      var ctx := ContextOf(env, localization, types, c);
      Registration([InitializedCollection(env, c)], ApplyOps(q, QueryOps(c.config), ctx),
                   ApplyOps(m, MutationOps(c.config), ctx))
  }

  /** The whole `forEach` over the registry, collection by collection. */
  function RegisterAll(env: Collaborators, localization: Option<Localization>, types: TypeRegistry,
                       cs: seq<Collection>, q: FieldMap, m: FieldMap): Registration
  {
    if |cs| == 0 then Registration([], q, m)
    else
      var r := RegisterAll(env, localization, types, cs[..|cs| - 1], q, m);
      var step := RegisterCollection(env, localization, types, cs[|cs| - 1], r.query, r.mutation);
      Registration(r.collections + step.collections, step.query, step.mutation)
  }

  /* -------------------------------------------------------------- methods */

  /** One more collection at the end of the registry is one more `RegisterCollection` step. */
  lemma RegisterAllSnoc(env: Collaborators, localization: Option<Localization>, types: TypeRegistry,
                        cs: seq<Collection>, c: Collection, q: FieldMap, m: FieldMap)
    ensures var r := RegisterAll(env, localization, types, cs, q, m);
            var step := RegisterCollection(env, localization, types, c, r.query, r.mutation);
            RegisterAll(env, localization, types, cs + [c], q, m)
              == Registration(r.collections + step.collections, step.query, step.mutation)
  {
    assert (cs + [c])[..|cs|] == cs;
  }

  lemma {:induction false} ApplyOpsSnoc(m: FieldMap, ops: seq<Operation>, op: Operation, ctx: OpContext)
    ensures ApplyOps(m, ops + [op], ctx)
         == ApplyOps(m, ops, ctx)[OperationName(op, ctx.names, ctx.env.formatName) := Definition(op, ctx)]
  {
    var es := Entries(ops + [op], ctx);
    assert es[..|es| - 1] == Entries(ops, ctx);
  }

  function Write(m: FieldMap, op: Operation, ctx: OpContext): FieldMap {
    m[OperationName(op, ctx.names, ctx.env.formatName) := Definition(op, ctx)]
  }

  lemma ApplyOpsNone(m: FieldMap, ctx: OpContext)
    ensures ApplyOps(m, [], ctx) == m
  {
  }

  lemma ApplyOps1(m: FieldMap, a: Operation, ctx: OpContext)
    ensures ApplyOps(m, [a], ctx) == Write(m, a, ctx)
  {
    ApplyOpsSnoc(m, [], a, ctx);
  }

  lemma ApplyOps2(m: FieldMap, a: Operation, b: Operation, ctx: OpContext)
    ensures ApplyOps(m, [a, b], ctx) == Write(Write(m, a, ctx), b, ctx)
  {
    ApplyOps1(m, a, ctx);
    ApplyOpsSnoc(m, [a], b, ctx);
    assert [a] + [b] == [a, b];
  }

  lemma ApplyOps3(m: FieldMap, a: Operation, b: Operation, c: Operation, ctx: OpContext)
    ensures ApplyOps(m, [a, b, c], ctx) == Write(Write(Write(m, a, ctx), b, ctx), c, ctx)
  {
    ApplyOps2(m, a, b, ctx);
    ApplyOpsSnoc(m, [a, b], c, ctx);
    assert [a, b] + [c] == [a, b, c];
  }

  lemma ApplyOps4(m: FieldMap, a: Operation, b: Operation, c: Operation, d: Operation, ctx: OpContext)
    ensures ApplyOps(m, [a, b, c, d], ctx) == Write(Write(Write(Write(m, a, ctx), b, ctx), c, ctx), d, ctx)
  {
    ApplyOps3(m, a, b, c, ctx);
    ApplyOpsSnoc(m, [a, b, c], d, ctx);
    assert [a, b, c] + [d] == [a, b, c, d];
  }

  lemma {:induction false} ApplyOpsAppend(m: FieldMap, a: seq<Operation>, b: seq<Operation>, ctx: OpContext)
    ensures ApplyOps(m, a + b, ctx) == ApplyOps(ApplyOps(m, a, ctx), b, ctx)
  {
    if |b| == 0 {
      assert a + b == a;
    } else {
      var init, last := b[..|b| - 1], b[|b| - 1];
      assert b == init + [last];
      assert a + b == (a + init) + [last];
      ApplyOpsAppend(m, a, init, ctx);
      ApplyOpsSnoc(m, a + init, last, ctx);
      ApplyOpsSnoc(ApplyOps(m, a, ctx), init, last, ctx);
    }
  }

  /*
   * The blocks of the callback that write root fields. Each takes the
   * current Query and Mutation field maps and returns them with its
   * assignments made, in source order.
   */

  /** Writes the read, create, update and delete operations (init.ts lines 136-218). */
  method RegisterBaseOperations(queryFields: FieldMap, mutationFields: FieldMap, ctx: OpContext)
    returns (queries: FieldMap, mutations: FieldMap)
    ensures queries == ApplyOps(queryFields, BaseQueryOps(), ctx)
    ensures mutations == ApplyOps(mutationFields, BaseMutationOps(), ctx)
  {
    var singularName, pluralName := ctx.names.singular, ctx.names.plural;
    queries := queryFields[singularName := FindByIDField(ctx)];
    queries := queries[pluralName := FindField(ctx)];
    queries := queries["docAccess" + singularName := DocAccessField(ctx)];
    mutations := mutationFields["create" + singularName := CreateField(ctx)];
    mutations := mutations["update" + singularName := UpdateField(ctx)];
    mutations := mutations["delete" + singularName := DeleteField(ctx)];
    assert queries == Write(Write(Write(queryFields, FindByID, ctx), Find, ctx), DocAccess, ctx);
    assert mutations == Write(Write(Write(mutationFields, Create, ctx), Update, ctx), Delete, ctx);
    ApplyOps3(queryFields, FindByID, Find, DocAccess, ctx);
    ApplyOps3(mutationFields, Create, Update, Delete, ctx);
  }

  /** Writes the version operations of a versioned collection (init.ts lines 220-292). */
  method RegisterVersionOperations(queryFields: FieldMap, mutationFields: FieldMap, ctx: OpContext)
    returns (queries: FieldMap, mutations: FieldMap)
    ensures queries == ApplyOps(queryFields, VersionQueryOps(ctx.config), ctx)
    ensures mutations == ApplyOps(mutationFields, VersionMutationOps(ctx.config), ctx)
  {
    var singularName, pluralName, fmt := ctx.names.singular, ctx.names.plural, ctx.env.formatName;
    queries, mutations := queryFields, mutationFields;
    if ctx.config.versions.Some? {
      queries := queries["version" + fmt(singularName) := FindVersionByIDField(ctx)];
      queries := queries["versions" + pluralName := FindVersionsField(ctx)];
      mutations := mutations["restoreVersion" + fmt(singularName) := RestoreVersionField(ctx)];
      assert queries == Write(Write(queryFields, FindVersionByID, ctx), FindVersions, ctx);
      assert mutations == Write(mutationFields, RestoreVersion, ctx);
      ApplyOps2(queryFields, FindVersionByID, FindVersions, ctx);
      ApplyOps1(mutationFields, RestoreVersion, ctx);
    } else {
      ApplyOpsNone(queryFields, ctx);
      ApplyOpsNone(mutationFields, ctx);
    }
  }

  /** Writes the auth operations of an auth collection (init.ts lines 294-370). */
  method RegisterAuthOperations(queryFields: FieldMap, mutationFields: FieldMap, ctx: OpContext)
    returns (queries: FieldMap, mutations: FieldMap)
    ensures queries == ApplyOps(queryFields, AuthQueryOps(ctx.config), ctx)
    ensures mutations == ApplyOps(mutationFields, AuthMutationOps(ctx.config), ctx)
  {
    var singularName := ctx.names.singular;
    queries, mutations := queryFields, mutationFields;
    if ctx.config.auth.Some? {
      queries := queries["me" + singularName := MeField(ctx)];
      queries := queries["initialized" + singularName := InitField(ctx)];
      mutations := mutations["refreshToken" + singularName := RefreshField(ctx)];
      mutations := mutations["logout" + singularName := LogoutField(ctx)];
      assert queries == Write(Write(queryFields, Me, ctx), Init, ctx);
      assert mutations == Write(Write(mutationFields, Refresh, ctx), Logout, ctx);
      ApplyOps2(queryFields, Me, Init, ctx);
      ApplyOps2(mutationFields, Refresh, Logout, ctx);
      mutations := RegisterLocalStrategyOperations(mutations, ctx);
      ApplyOpsAppend(mutationFields, [Refresh, Logout], LocalStrategyOps(ctx.config), ctx);
    } else {
      ApplyOpsNone(queryFields, ctx);
      ApplyOpsNone(mutationFields, ctx);
    }
  }

  /** Writes the password-based operations of a local-strategy auth collection (init.ts lines 371-436). */
  method RegisterLocalStrategyOperations(mutationFields: FieldMap, ctx: OpContext) returns (mutations: FieldMap)
    ensures mutations == ApplyOps(mutationFields, LocalStrategyOps(ctx.config), ctx)
  {
    var singularName := ctx.names.singular;
    mutations := mutationFields;
    if ctx.config.auth.Some? && !ctx.config.auth.value.disableLocalStrategy {
      ghost var unlock: seq<Operation> := [];
      if ctx.config.auth.value.maxLoginAttempts > 0 {
        mutations := mutations["unlock" + singularName := UnlockField(ctx)];
        assert mutations == Write(mutationFields, Unlock, ctx);
        ApplyOps1(mutationFields, Unlock, ctx);
        unlock := [Unlock];
      } else {
        ApplyOpsNone(mutationFields, ctx);
      }
      mutations := RegisterPasswordOperations(mutations, ctx);
      ApplyOpsAppend(mutationFields, unlock, PasswordOps(), ctx);
    } else {
      ApplyOpsNone(mutationFields, ctx);
    }
  }

  /** Writes `login`, `forgotPassword`, `resetPassword` and `verifyEmail` (init.ts lines 382-435). */
  method RegisterPasswordOperations(mutationFields: FieldMap, ctx: OpContext) returns (mutations: FieldMap)
    ensures mutations == ApplyOps(mutationFields, PasswordOps(), ctx)
  {
    var singularName := ctx.names.singular;
    mutations := mutationFields["login" + singularName := LoginField(ctx)];
    mutations := mutations["forgotPassword" + singularName := ForgotPasswordField(ctx)];
    mutations := mutations["resetPassword" + singularName := ResetPasswordField(ctx)];
    mutations := mutations["verifyEmail" + singularName := VerifyEmailField(ctx)];
    assert mutations == Write(Write(Write(Write(mutationFields, Login, ctx), ForgotPassword, ctx), ResetPassword, ctx),
                              VerifyEmail, ctx);
    ApplyOps4(mutationFields, Login, ForgotPassword, ResetPassword, VerifyEmail, ctx);
  }

  /**
   * The type building of the `forEach` callback for an enabled collection
   * (init.ts lines 79-134): the read types from the field list as it is,
   * then the password push, then the mutation inputs from the extended list.
   * It is the imperative mirror of `BuildCollectionGraphQL`, which defines the types.
   */
  method BuildTypes(env: Collaborators, config: CollectionConfig, names: SlugNames)
    returns (fields: seq<Field>, graphQL: CollectionGraphQL)
    requires config.graphQL.GraphQLEnabled?
    ensures fields == FieldsAfterInit(config)
    ensures graphQL == BuildCollectionGraphQL(env, config, names)
  {
    var singularName, pluralName := names.singular, names.plural;

    var idField := FindIdField(config.fields);
    var idType := env.collectionIDType(config);
    var baseFields: map<string, GqlType> := map[];
    var whereInputFields := config.fields;
    if idField.None? {
      baseFields := baseFields["id" := idType];
      whereInputFields := whereInputFields + [IdWhereField()];
    }
    var forceNullable := config.versions.Some? && config.versions.value.drafts;
    var objectType := ObjectType(singularName, singularName, config.fields, baseFields, forceNullable);
    var paginatedType := PaginatedList(pluralName, objectType);
    var whereInputType := WhereInput(singularName, whereInputFields, singularName);

    fields := config.fields;
    if config.auth.Some? && !config.auth.value.disableLocalStrategy {
      fields := fields + [PasswordField()];
    }
    var after := config.(fields := fields);

    var mutationInputType := NonNull(MutationInput(singularName, fields, singularName, false));
    var updateMutationInputType := NonNull(MutationInput(singularName + "Update", RemoveIdFields(fields),
                                                         singularName + "Update", true));
    var versionType: Option<GqlType> := None;
    if config.versions.Some? {
      var versionName := singularName + "Version";
      versionType := Some(ObjectType(versionName, versionName, VersionFields(env, after), map[], forceNullable));
    }
    var jwt: Option<GqlType> := None;
    if config.auth.Some? {
      var jwtName := env.formatName(config.slug + "JWT");
      jwt := Some(ObjectType(jwtName, jwtName, JWTTypeFields(after), map[], false));
    }
    graphQL := CollectionGraphQL(objectType, paginatedType, whereInputType, mutationInputType,
                                 updateMutationInputType, versionType, jwt);
  }

  /**
   * The first half of the `forEach` callback for an enabled collection
   * (init.ts lines 77-134): builds the collection's types, extends its own
   * field list with the password field and stores both on it.
   */
  method BuildCollectionTypes(p: Payload, env: Collaborators, i: nat, names: SlugNames)
    returns (config: CollectionConfig, graphQL: CollectionGraphQL)
    requires i < |p.collections| && p.collections[i].config.graphQL.GraphQLEnabled?
    modifies p
    ensures config == old(p.collections[i].config).(fields := FieldsAfterInit(old(p.collections[i].config)))
    ensures graphQL == BuildCollectionGraphQL(env, old(p.collections[i].config), names)
    ensures p.collections == old(p.collections)[i := Collection(config, Some(graphQL))]
    ensures p.query == old(p.query) && p.mutation == old(p.mutation) && p.types == old(p.types)
  {
    var c := p.collections[i];
    var fields;
    fields, graphQL := BuildTypes(env, c.config, names);
    config := c.config.(fields := fields);
    p.collections := p.collections[i := Collection(config, Some(graphQL))];
  }

  /** Registers collection `i` of the registry: one call of the `forEach` callback. */
  method InitCollection(p: Payload, env: Collaborators, i: nat)
    requires i < |p.collections|
    modifies p
    ensures var r := RegisterCollection(env, p.config.localization, old(p.types), old(p.collections[i]),
                                        old(p.query.fields), old(p.mutation.fields));
            && p.collections == old(p.collections)[i := InitializedCollection(env, old(p.collections[i]))]
            && p.query == RootType(old(p.query.name), r.query)
            && p.mutation == RootType(old(p.mutation.name), r.mutation)
    ensures p.types == old(p.types)
  {
    var c := p.collections[i];
    if c.config.graphQL.GraphQLDisabled? {
      return;
    }
    var names := ResolveNames(env, c.config.slug, c.config.graphQL);
    var config, graphQL := BuildCollectionTypes(p, env, i, names);
    var ctx := OpContext(env, p.config.localization, p.types, config, names, env.collectionIDType(c.config), graphQL);
    assert ctx == ContextOf(env, p.config.localization, p.types, c);

    OpsIgnoreFields(c.config, config.fields);
    var queries, mutations := RegisterOperations(p.query.fields, p.mutation.fields, ctx);
    p.query := p.query.(fields := queries);
    p.mutation := p.mutation.(fields := mutations);
  }

  /** Which operations a collection registers does not depend on its field list. */
  lemma OpsIgnoreFields(config: CollectionConfig, fields: seq<Field>)
    ensures QueryOps(config.(fields := fields)) == QueryOps(config)
    ensures MutationOps(config.(fields := fields)) == MutationOps(config)
  {
  }

  /** The root-field half of the callback (init.ts lines 136-436): the base, version and auth blocks in turn. */
  method RegisterOperations(queryFields: FieldMap, mutationFields: FieldMap, ctx: OpContext)
    returns (queries: FieldMap, mutations: FieldMap)
    ensures queries == ApplyOps(queryFields, QueryOps(ctx.config), ctx)
    ensures mutations == ApplyOps(mutationFields, MutationOps(ctx.config), ctx)
  {
    var config := ctx.config;
    queries, mutations := RegisterBaseOperations(queryFields, mutationFields, ctx);
    queries, mutations := RegisterVersionOperations(queries, mutations, ctx);
    queries, mutations := RegisterAuthOperations(queries, mutations, ctx);
    ApplyOpsAppend(queryFields, BaseQueryOps(), VersionQueryOps(config), ctx);
    ApplyOpsAppend(queryFields, BaseQueryOps() + VersionQueryOps(config), AuthQueryOps(config), ctx);
    ApplyOpsAppend(mutationFields, BaseMutationOps(), VersionMutationOps(config), ctx);
    ApplyOpsAppend(mutationFields, BaseMutationOps() + VersionMutationOps(config), AuthMutationOps(config), ctx);
  }

  /** `initCollectionsGraphQL`: registers every collection of the registry in `Object.keys` order. */
  method InitCollectionsGraphQL(p: Payload, env: Collaborators)
    modifies p
    ensures var r := RegisterAll(env, p.config.localization, old(p.types), old(p.collections),
                                 old(p.query.fields), old(p.mutation.fields));
            && p.collections == r.collections
            && p.query == RootType(old(p.query.name), r.query)
            && p.mutation == RootType(old(p.mutation.name), r.mutation)
    ensures p.types == old(p.types)
  {
    var i := 0;
    ghost var cs, loc, types, q, m := p.collections, p.config.localization, p.types, p.query, p.mutation;
    ghost var reg := Registration([], q.fields, m.fields);
    while i < |p.collections|
      invariant 0 <= i <= |p.collections| == |cs|
      invariant p.collections[i..] == cs[i..]
      invariant p.types == types
      invariant reg == RegisterAll(env, loc, types, cs[..i], q.fields, m.fields)
      invariant p.collections[..i] == reg.collections
      invariant p.query == RootType(q.name, reg.query) && p.mutation == RootType(m.name, reg.mutation)
    {
      ghost var c := cs[i];
      assert p.collections[i] == c;
      ghost var step := RegisterCollection(env, loc, types, c, reg.query, reg.mutation);
      RegisterAllSnoc(env, loc, types, cs[..i], c, q.fields, m.fields);
      assert cs[..i] + [c] == cs[..i + 1];
      InitCollection(p, env, i);
      reg := Registration(reg.collections + step.collections, step.query, step.mutation);
      i := i + 1;
    }
    assert cs[..i] == cs;
  }
}
