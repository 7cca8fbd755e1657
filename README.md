# Payload GraphQL registration and Postgres migration files, in Dafny

This project models three pieces of Payload CMS:

- **`initCollectionsGraphQL`** (`packages/payload/src/collections/graphql/init.ts`). For each collection of
  the registry it does the following:
  - resolves the singular and plural GraphQL names, adding the `all` prefix when they coincide;
  - builds the object, paginated, where-input, mutation-input and update-input types, plus the version
    and JWT types where they apply;
  - appends the required `password` field to the collection's own field list when the collection uses
    local-strategy auth;
  - writes the collection's operations into the root Query and Mutation field maps.
- **`registerGraphQLSchema`** (`packages/payload/src/graphql/registerSchema.ts`). It does the following,
  in order:
  - resets the type registry, with the locale input types only under localization;
  - starts empty Query and Mutation maps;
  - registers the collections, then the globals;
  - writes `Access`;
  - spreads the configured custom queries and mutations over the generated fields.
- **`migrationTemplate` and `createMigration`** (`packages/db-postgres/src/createMigration.ts`). They
  produce the migration file:
  - the timestamp is derived from an ISO date-time;
  - the migration name is sanitised;
  - the file name and path follow from those two;
  - the "before" snapshot is the stored one or the empty one;
  - the TypeScript file embeds the newline-joined SQL statements.

The `payload` object is a class, `Payload.Payload`, whose collections, type registry and root maps the
methods update in place. Each method is proved against a specification function:
- `CollectionsInit.InitializedCollection` and `CollectionsInit.RegisterAll`;
- `RegisterSchema.RegisteredSchema`;
- `CreateMigration.MigrationTemplate`.

Lemmas about those functions prove the rest:
- which root fields exist;
- which definition ends up under each name;
- that no mutation of a collection overwrites another;
- what registration does to the collection itself;
- that the template round-trips its SQL.

The GraphQL type builders are not part of this model. Each builder call is a free constructor of
`GraphQL.GqlType` that records its arguments. Neither are `formatNames`, `toWords`, `formatName`,
`getCollectionIDType`, `buildVersionCollectionFields`, the global registration, the resolvers, the
clock, the filesystem or drizzle. These are parameters: `Payload.Collaborators` holds the functions,
and the migration inputs are arguments.

Some behaviours of the code that the model keeps as they are:
- `version…` and `restoreVersion…` are named with `formatName(singular)`, not the plain singular name
  (init.ts lines 247 and 285).
- Names are not checked for uniqueness. A later write silently replaces an earlier one, across
  collections, globals and custom fields alike.
- The `all` prefix (init.ts line 74) only separates a collection's own singular and plural. Two
  collections that resolve to the same names overwrite each other's fields
  (`CollectionsProps.MutationSurvives`).
- Override names are passed through `toWords` (init.ts lines 59 and 64) with no further validation.

## Model

| member | source | states |
|---|---|---|
| Fields.NamedField | packages/payload/src/collections/graphql/init.ts:114-119 | an object-literal field carries its name, is not saved to the JWT, and affects data unless it is a `ui` field |
| Fields.FindIdField | packages/payload/src/collections/graphql/init.ts:79 | `fields.find`: none exactly when no data field is named `id`; otherwise a field of the list that is the `id` field |
| Fields.Filter | packages/payload/src/collections/graphql/init.ts:130 | `Array.filter`: no longer than its input, and holds exactly the input fields the predicate keeps |
| Fields.FilterAppend | packages/payload/src/collections/graphql/init.ts:130 | filtering a concatenation is the concatenation of the filtered parts, so the order is kept |
| Fields.FilterKeepsAll | packages/payload/src/collections/graphql/init.ts:130 | a list whose every field is kept comes back unchanged |
| Fields.RemoveIdFields | packages/payload/src/collections/graphql/init.ts:130 | the update-input fields are exactly the fields that are not the data field `id` |
| Fields.JWTFields | packages/payload/src/collections/graphql/init.ts:306 | the JWT fields are exactly the data fields flagged `saveToJWT` |
| GraphQL.ApplyKeys | packages/payload/src/collections/graphql/init.ts:136-218 | a sequence of root-field assignments leaves the old keys plus the assigned keys, nothing else |
| GraphQL.ApplyUntouched | packages/payload/src/collections/graphql/init.ts:136-218 | a key no assignment names keeps its old value, or stays absent |
| GraphQL.ApplyLastWins | packages/payload/src/collections/graphql/init.ts:136-218 | an assigned key holds the value of the last assignment to it |
| GraphQL.Merge | packages/payload/src/graphql/registerSchema.ts:54-60 | object spread of the custom fields over the base: base keys plus custom keys, custom values win, other base values kept, no custom means base |
| CollectionsInit.ResolveNames | packages/payload/src/collections/graphql/init.ts:55-75 | singular is the override through `toWords` or the slug's singular; plural is the requested plural unless it equals the singular, then `all` + singular; the two always differ |
| CollectionsInit.BuildCollectionGraphQL | packages/payload/src/collections/graphql/init.ts:77-134 | the collection's types, defined: object type from the configured fields with a synthetic `id` when there is none, its paginated list, the where input (plus an `id` field when none is configured), the create and update mutation inputs from the fields after the password push (update without `id`, forced nullable), and the version and JWT object types only with versions and auth |
| CollectionsInit.OperationName | packages/payload/src/collections/graphql/init.ts:136-435 | the root field names, defined: `S`, `P`, `docAccessS`, `createS`, `updateS`, `deleteS`, `version`+formatName(S), `versionsP`, `restoreVersion`+formatName(S), `meS`, `initializedS`, `refreshTokenS`, `logoutS`, `unlockS`, `loginS`, `forgotPasswordS`, `resetPasswordS`, `verifyEmailS` |
| CollectionsInit.FindByIDField | packages/payload/src/collections/graphql/init.ts:136-150 | defined: args `draft`, non-null `id` of the collection ID type and the locale args; type the object type |
| CollectionsInit.FindField | packages/payload/src/collections/graphql/init.ts:151-168 | defined: args `draft`, `where` of the where input, the locale args, `limit`, `page`, `sort`; type the paginated list of the plural name |
| CollectionsInit.DocAccessField | packages/payload/src/collections/graphql/init.ts:169-181 | defined: a non-null `id` arg; type the `docAccess` policy type of the collection |
| CollectionsInit.CreateField | packages/payload/src/collections/graphql/init.ts:182-195 | defined: args `data` of the mutation input, `draft`, and `locale` under localization; type the object type |
| CollectionsInit.UpdateField | packages/payload/src/collections/graphql/init.ts:196-211 | defined: args `autosave`, `data` of the update input, `draft`, non-null `id`, and `locale` under localization; type the object type |
| CollectionsInit.DeleteField | packages/payload/src/collections/graphql/init.ts:212-218 | defined: a non-null `id` arg; type the object type |
| CollectionsInit.FindVersionByIDField | packages/payload/src/collections/graphql/init.ts:247-259 | defined: a string `id` and the locale args; type the version type |
| CollectionsInit.FindVersionsField | packages/payload/src/collections/graphql/init.ts:260-284 | defined: `where` of the version where input, the locale args, `limit`, `page`, `sort`; type the paginated list of versions |
| CollectionsInit.RestoreVersionField | packages/payload/src/collections/graphql/init.ts:285-291 | defined: a string `id`; type the object type |
| CollectionsInit.MeField | packages/payload/src/collections/graphql/init.ts:319-338 | defined: no args; an inline `…Me` type with `collection`, `exp`, `token` and `user` |
| CollectionsInit.InitField | packages/payload/src/collections/graphql/init.ts:340-343 | defined: no args; type Boolean |
| CollectionsInit.RefreshField | packages/payload/src/collections/graphql/init.ts:345-364 | defined: a `token` arg; an inline `…Refreshed…` type with `exp`, `refreshedToken` and the JWT type as `user` |
| CollectionsInit.LogoutField | packages/payload/src/collections/graphql/init.ts:366-369 | defined: no args; type String |
| CollectionsInit.UnlockField | packages/payload/src/collections/graphql/init.ts:373-379 | defined: a non-null `email` arg; type non-null Boolean |
| CollectionsInit.LoginField | packages/payload/src/collections/graphql/init.ts:382-402 | defined: `email` and `password` args; an inline `…LoginResult` type with `exp`, `token` and `user` |
| CollectionsInit.ForgotPasswordField | packages/payload/src/collections/graphql/init.ts:404-412 | defined: `disableEmail`, non-null `email` and `expiration` args; type non-null Boolean |
| CollectionsInit.ResetPasswordField | packages/payload/src/collections/graphql/init.ts:414-427 | defined: `password` and `token` args; an inline `…ResetPassword` type with `token` and `user` |
| CollectionsInit.VerifyEmailField | packages/payload/src/collections/graphql/init.ts:429-435 | defined: a `token` arg; type Boolean |
| CollectionsInit.RegisterCollection | packages/payload/src/collections/graphql/init.ts:46-437 | one callback, defined: a disabled collection leaves both maps as they are; an enabled one is initialized and its query and mutation operations are written in order |
| CollectionsInit.RegisterAll | packages/payload/src/collections/graphql/init.ts:45-439 | the `forEach`, defined: `RegisterCollection` over the registry in order, each step starting from the maps the previous one left |
| CollectionsInit.ApplyOpsAppend | packages/payload/src/collections/graphql/init.ts:136-436 | writing two blocks of operations is writing the first, then the second |
| CollectionsInit.RegisterBaseOperations | packages/payload/src/collections/graphql/init.ts:136-218 | the Query map comes back with findByID, find and docAccess written, the Mutation map with create, update and delete, each in source order |
| CollectionsInit.RegisterVersionOperations | packages/payload/src/collections/graphql/init.ts:220-292 | with versions, the Query map gains `version…` and `versions…` and the Mutation map `restoreVersion…`; without versions both come back unchanged |
| CollectionsInit.RegisterAuthOperations | packages/payload/src/collections/graphql/init.ts:294-370 | with auth, the Query map gains `me…` and `initialized…`, the Mutation map `refreshToken…`, `logout…` and then the local-strategy block; without auth both come back unchanged |
| CollectionsInit.RegisterLocalStrategyOperations | packages/payload/src/collections/graphql/init.ts:371-436 | with auth and without `disableLocalStrategy`, the Mutation map gains `unlock…` (only if `maxLoginAttempts > 0`), then the four password mutations; otherwise it comes back unchanged |
| CollectionsInit.RegisterPasswordOperations | packages/payload/src/collections/graphql/init.ts:382-435 | the Mutation map gains `login…`, `forgotPassword…`, `resetPassword…`, `verifyEmail…` in that order |
| CollectionsInit.BuildTypes | packages/payload/src/collections/graphql/init.ts:79-134 | the collection's types are built from its field list before the password push, the mutation inputs after it; the returned field list is the config's own plus `password` under local strategy |
| CollectionsInit.BuildCollectionTypes | packages/payload/src/collections/graphql/init.ts:77-134 | stores the extended field list and the built types on collection i; the other collections and the root maps are unchanged (the model's builders write nothing into `payload.types`) |
| CollectionsInit.OpsIgnoreFields | packages/payload/src/collections/graphql/init.ts:113-120 | the password push does not change which operations a collection registers |
| CollectionsInit.RegisterOperations | packages/payload/src/collections/graphql/init.ts:136-436 | the base, version and auth blocks together write the collection's whole query list into the Query map and its whole mutation list into the Mutation map |
| CollectionsInit.InitCollection | packages/payload/src/collections/graphql/init.ts:46-437 | one callback replaces collection i by its initialized form and leaves both root maps as `RegisterCollection` specifies; a collection with `graphQL: false` is skipped |
| CollectionsInit.InitCollectionsGraphQL | packages/payload/src/collections/graphql/init.ts:45-439 | the whole `forEach` leaves collections and root maps as `RegisterAll` over the registry in order; the model's type registry stays as it was, since its builders write nothing into it |
| CollectionsProps.EntriesAt | packages/payload/src/collections/graphql/init.ts:136-436 | the i-th root assignment of a collection writes the i-th operation's definition under its name |
| CollectionsProps.EntriesKeys | packages/payload/src/collections/graphql/init.ts:136-436 | the keys a collection's assignments use are exactly its operations' names |
| CollectionsProps.ApplyOpsKeys | packages/payload/src/collections/graphql/init.ts:136-436 | writing a list of operations adds exactly their names to the map's keys |
| CollectionsProps.ApplyOpsDefinition | packages/payload/src/collections/graphql/init.ts:136-436 | an operation's definition is what its name holds, unless a later operation of the list writes that name |
| CollectionsProps.MutationOperationOf | packages/payload/src/collections/graphql/init.ts:182-435 | decoding a Mutation field name by its prefix only ever yields a mutation |
| CollectionsProps.MutationNameRoundTrip | packages/payload/src/collections/graphql/init.ts:182-435 | every mutation's field name decodes back to that mutation, whatever the collection's names |
| CollectionsProps.MutationNamesDistinct | packages/payload/src/collections/graphql/init.ts:182-435 | two different mutations of one collection never share a field name |
| CollectionsProps.AscendingDistinct | packages/payload/src/collections/graphql/init.ts:182-435 | operations in strictly ascending source position never repeat |
| CollectionsProps.AscendingAppend | packages/payload/src/collections/graphql/init.ts:182-435 | two ascending blocks joined in order stay ascending |
| CollectionsProps.PasswordOpsAscending | packages/payload/src/collections/graphql/init.ts:382-435 | the four password mutations are written in ascending order, after `unlock` |
| CollectionsProps.UnlockBlockAscending | packages/payload/src/collections/graphql/init.ts:371-435 | `unlock` and the password mutations are written in ascending order, after `logout` |
| CollectionsProps.BaseVersionOpsAscending | packages/payload/src/collections/graphql/init.ts:182-292 | the base and version mutations are written in ascending order, all before `refreshToken` |
| CollectionsProps.LocalStrategyOpsAscending | packages/payload/src/collections/graphql/init.ts:371-436 | the local-strategy mutations are written in ascending order, all after `logout` |
| CollectionsProps.AuthMutationOpsAscending | packages/payload/src/collections/graphql/init.ts:345-436 | the auth mutations are written in ascending order, all after `restoreVersion` |
| CollectionsProps.MutationOpsDistinct | packages/payload/src/collections/graphql/init.ts:182-436 | a collection's mutation list holds mutations only, each at most once |
| CollectionsProps.MutationDefinitions | packages/payload/src/collections/graphql/init.ts:182-436 | after a collection's mutations are written, each one sits under its own name with its own definition |
| CollectionsProps.QueryOpsMembers | packages/payload/src/collections/graphql/init.ts:136-340 | findByID, find and docAccess always; the version queries iff versions; `me` and `initialized` iff auth; all are queries |
| CollectionsProps.LocalStrategyOpsMembers | packages/payload/src/collections/graphql/init.ts:371-436 | the local-strategy block holds `unlock` iff `maxLoginAttempts > 0`, the four password mutations always |
| CollectionsProps.AuthMutationOpsMembers | packages/payload/src/collections/graphql/init.ts:345-436 | the auth block holds `refreshToken` and `logout` iff auth, every local-strategy mutation, and nothing else |
| CollectionsProps.MutationOpsBlocks | packages/payload/src/collections/graphql/init.ts:182-436 | a mutation is in the list iff it is in the base, version or auth block |
| CollectionsProps.MutationOpsMembers | packages/payload/src/collections/graphql/init.ts:182-370 | create, update and delete always; `restoreVersion` iff versions; `refreshToken` and `logout` iff auth |
| CollectionsProps.PasswordMutationsMembers | packages/payload/src/collections/graphql/init.ts:371-436 | the password mutations iff local-strategy auth; `unlock` iff that and `maxLoginAttempts > 0` |
| CollectionsProps.InitializedAll | packages/payload/src/collections/graphql/init.ts:46-438 | as long as the registry, and each entry is the initialized form of the collection at the same position |
| CollectionsProps.RegisterAllCollections | packages/payload/src/collections/graphql/init.ts:46-438 | the collections after registration are `InitializedAll` of the registry: each its own initialized form, in registry order |
| CollectionsProps.RegisterAllDisabled | packages/payload/src/collections/graphql/init.ts:53 | a registry with every collection's `graphQL` disabled registers no field and changes no collection |
| CollectionsProps.RegisterCollectionKeys | packages/payload/src/collections/graphql/init.ts:136-436 | registering one collection adds exactly its query and mutation names to the two maps |
| CollectionsProps.AnyRegistersQueryExists | packages/payload/src/collections/graphql/init.ts:136-340 | the collection-by-collection test for a query name holds iff some collection of the list registers a query of that name |
| CollectionsProps.AnyRegistersMutationExists | packages/payload/src/collections/graphql/init.ts:182-436 | the collection-by-collection test for a mutation name holds iff some collection of the list registers a mutation of that name |
| CollectionsProps.RegisterAllKeysStep | packages/payload/src/collections/graphql/init.ts:46-438 | a root key exists after registration iff it existed before or one of the collections registers it |
| CollectionsProps.RegisterAllQueryKeys | packages/payload/src/collections/graphql/init.ts:46-438 | a Query key exists after registration iff it existed before or some enabled collection registers a query of that name |
| CollectionsProps.RegisterAllMutationKeys | packages/payload/src/collections/graphql/init.ts:46-438 | a Mutation key exists after registration iff it existed before or some enabled collection registers a mutation of that name |
| CollectionsProps.RegisterCollectionKeepsMutation | packages/payload/src/collections/graphql/init.ts:182-436 | registering a collection leaves every Mutation key it does not register untouched |
| CollectionsProps.RegisterCollectionMutation | packages/payload/src/collections/graphql/init.ts:182-436 | registering an enabled collection puts each of its mutations under its name |
| CollectionsProps.MutationSurvives | packages/payload/src/collections/graphql/init.ts:46-438 | a collection's mutation keeps its definition unless a later collection registers the same name |
| CollectionsProps.InitializedConfig | packages/payload/src/collections/graphql/init.ts:113-120 | registration changes only the field list of the configuration, by the password push |
| CollectionsProps.ConfigAfterInitTwice | packages/payload/src/collections/graphql/init.ts:113-120 | the password push keeps the local-strategy setting; applied twice it leaves two `password` fields; without local strategy it changes nothing |
| CollectionsProps.ReRegistration | packages/payload/src/collections/graphql/init.ts:113-120 | registering twice equals registering once iff there is no local strategy; otherwise the field list gains a second `password` |
| CollectionsProps.PasswordPlacement | packages/payload/src/collections/graphql/init.ts:96-134 | `password` reaches both mutation inputs; it is in the object and where types only if the config already had it; it is never in the JWT |
| CollectionsProps.SyntheticId | packages/payload/src/collections/graphql/init.ts:79-92 | the object type gets a synthetic `id` of the collection's ID type iff no data field is `id`; the where input is the collection's fields, plus the synthetic `id` where field exactly when no data field is `id`, so it always has one |
| CollectionsProps.UpdateInputOmitsId | packages/payload/src/collections/graphql/init.ts:126-134 | the update input is nullable-forced and holds exactly the collection's fields other than the data field `id` |
| RegisterSchema.ResetTypes | packages/payload/src/graphql/registerSchema.ts:19-32 | five empty sub-registries; the locale and fallback-locale input types exist iff localization is configured, and are built from it |
| RegisterSchema.ResetTypeRegistry | packages/payload/src/graphql/registerSchema.ts:19-32 | builds the fresh registry `ResetTypes` describes: empty sub-registries, locale input types only under localization |
| RegisterSchema.GeneratedQuery | packages/payload/src/graphql/registerSchema.ts:34-50 | defined: an empty Query map, the collections' writes, then the globals', then `Access` with the policies type |
| RegisterSchema.GeneratedMutation | packages/payload/src/graphql/registerSchema.ts:39-45 | defined: an empty Mutation map, the collections' writes, then the globals' |
| RegisterSchema.FinalQuery | packages/payload/src/graphql/registerSchema.ts:52-61 | defined: the generated Query map with the custom queries (called with the generated maps) spread over it |
| RegisterSchema.FinalMutation | packages/payload/src/graphql/registerSchema.ts:63-72 | defined: the generated Mutation map with the custom mutations (called with the final Query map) spread over it |
| RegisterSchema.RegisteredSchema | packages/payload/src/graphql/registerSchema.ts:18-72 | defined: the reset type registry, the initialized collections, the final Query and the final Mutation map |
| RegisterSchema.SpreadCustomFields | packages/payload/src/graphql/registerSchema.ts:52-72 | the custom queries, called with both current maps, are spread over the Query map; the custom mutations, called with the Query map the custom queries left, are spread over the Mutation map |
| RegisterSchema.CustomResult | packages/payload/src/graphql/registerSchema.ts:52-72 | a `queries` or `mutations` setting that is not a function contributes nothing |
| RegisterSchema.AccessEntry | packages/payload/src/graphql/registerSchema.ts:47-50 | `Access` is always a Query field; it is the policies field unless the custom queries replace it |
| RegisterSchema.FinalQueryKeys | packages/payload/src/graphql/registerSchema.ts:34-61 | a final Query key is `Access`, a global's key, a query of an enabled collection, or a custom key, and nothing else |
| RegisterSchema.FinalMutationKeys | packages/payload/src/graphql/registerSchema.ts:39-72 | a final Mutation key is a global's key, a mutation of an enabled collection, or a custom key, and nothing else |
| RegisterSchema.MutationReachesSchema | packages/payload/src/graphql/registerSchema.ts:44-72 | a collection's mutation reaches the schema with its own definition unless a later collection, a global or the custom mutations take the name |
| RegisterSchema.CollectionQueryReachesSchema | packages/payload/src/graphql/registerSchema.ts:44-61 | a collection's Query field reaches the schema unchanged unless it is `Access`, a global's key or a custom key |
| RegisterSchema.GlobalMutationWins | packages/payload/src/graphql/registerSchema.ts:44-45 | globals are registered after collections: a global Mutation entry not re-used by a later global nor replaced by a custom mutation is the schema's definition for its key, even where a collection wrote the same key |
| RegisterSchema.GlobalQueryWins | packages/payload/src/graphql/registerSchema.ts:44-50 | the same for Query: a global entry other than `Access`, not re-used later nor replaced by a custom query, is the schema's definition for its key over any collection's |
| RegisterSchema.MutationsLeaveQueryAlone | packages/payload/src/graphql/registerSchema.ts:52-72 | the `mutations` setting never changes the final Query map |
| RegisterSchema.QueriesLeaveMutationAlone | packages/payload/src/graphql/registerSchema.ts:52-72 | without a `mutations` function, the `queries` setting never changes the final Mutation map |
| RegisterSchema.EmptySchema | packages/payload/src/graphql/registerSchema.ts:18-72 | with no enabled collection, no global entry and no custom fields, the schema is `Access` alone and no collection changes |
| RegisterSchema.InitGlobalsGraphQL | packages/payload/src/graphql/registerSchema.ts:45 | the globals' entries are written into Query and Mutation in order; the collections are unchanged, and so is the model's type registry, which the modelled globals do not write |
| RegisterSchema.RegisterGraphQLSchema | packages/payload/src/graphql/registerSchema.ts:18-72 | the `payload` object ends in `RegisteredSchema` of its configuration and collections: the reset type registry, the collections, and the named Query and Mutation roots |
| CreateMigration.Split | packages/db-postgres/src/createMigration.ts:43 | `split` with one character: at least one part, no part contains the separator, exactly one part iff the string has no separator |
| CreateMigration.JoinSplit | packages/db-postgres/src/createMigration.ts:43 | joining the parts of a split gives back the string |
| CreateMigration.SplitJoin | packages/db-postgres/src/createMigration.ts:87 | splitting the newline-join of newline-free statements gives back the statements |
| CreateMigration.JoinEmpty | packages/db-postgres/src/createMigration.ts:87 | a join is empty iff there are no parts or a single empty part |
| CreateMigration.KeepDigits | packages/db-postgres/src/createMigration.ts:44-45 | `replace(/\D/g, '')`: only digits, never longer than the input |
| CreateMigration.KeepDigitsAppend | packages/db-postgres/src/createMigration.ts:44-45 | keeping the digits distributes over concatenation |
| CreateMigration.KeepDigitsOfDigits | packages/db-postgres/src/createMigration.ts:44-45 | a string of digits keeps all of them |
| CreateMigration.ReplaceNonWord | packages/db-postgres/src/createMigration.ts:49 | `replace(/\W/g, '_')`: same length, word characters kept in place, every other character becomes `_` |
| CreateMigration.ReplaceNonWordIdempotent | packages/db-postgres/src/createMigration.ts:49 | the sanitised name is all word characters, and sanitising it again changes nothing |
| CreateMigration.Timestamp | packages/db-postgres/src/createMigration.ts:43-47 | the timestamp fails exactly when the date-time has no `T` (the time part is undefined) |
| CreateMigration.TimestampOfIso | packages/db-postgres/src/createMigration.ts:43-47 | for `YYYY-MM-DDTHH:mm:ss.sssZ` the timestamp is `YYYYMMDD_HHmmss` |
| CreateMigration.FileName | packages/db-postgres/src/createMigration.ts:49-50 | defined iff the timestamp is; it is the timestamp, `_`, the sanitised name `ReplaceNonWord(migrationName)` and `.ts`, so it ends in `_`, as many word characters as the name has, and `.ts` |
| CreateMigration.FileNameOfIso | packages/db-postgres/src/createMigration.ts:43-50 | for `YYYY-MM-DDTHH:mm:ss.sssZ` the file name is `YYYYMMDD_HHmmss_` + the sanitised name + `.ts` |
| CreateMigration.UpBody | packages/db-postgres/src/createMigration.ts:18-24 | defined: the SQL inside an `execute` call on a `sql` template when it is present and not empty, else the `// Migration code` placeholder |
| CreateMigration.MigrationTemplate | packages/db-postgres/src/createMigration.ts:12-30 | defined: header + `UpBody` + footer, character for character |
| CreateMigration.FilePath | packages/db-postgres/src/createMigration.ts:51 | defined: the directory, `/`, the file name |
| CreateMigration.SqlArgument | packages/db-postgres/src/createMigration.ts:87 | no SQL argument exactly when there are no statements |
| CreateMigration.ExtractTemplate | packages/db-postgres/src/createMigration.ts:12-30 | reading the SQL back out of a template gives the embedded SQL, and nothing when the SQL was absent or empty |
| CreateMigration.DownIsPlaceholder | packages/db-postgres/src/createMigration.ts:27-29 | every template ends with a `down` function holding only the placeholder comment |
| CreateMigration.TemplateOfStatements | packages/db-postgres/src/createMigration.ts:85-88 | for any statements, the file has no SQL iff there are no statements or a single empty one, and otherwise embeds exactly their newline join |
| CreateMigration.TemplateSplitsBack | packages/db-postgres/src/createMigration.ts:85-88 | for statements without newlines, the embedded SQL splits back on newlines into the statements |
| CreateMigration.BeforeSnapshot | packages/db-postgres/src/createMigration.ts:53-80 | the newest migration's schema when the table exists and the first document has one; otherwise the empty snapshot |
| CreateMigration.CreateMigration | packages/db-postgres/src/createMigration.ts:32-88 | fails iff the date-time has no `T`; otherwise the path is `dir/` + the file name, and the contents are the template of the statements generated from the "before" snapshot |

## Left out

- Resolvers are not modelled. A generated field definition records its operation and the collection it
  binds, not the resolver closure.
- Schema construction is not modelled: the `GraphQLSchema` constructor and the query-complexity
  validation rule (registerSchema.ts lines 74-94), so `maxComplexity` is carried but unused.
- The type builders are not modelled: `buildObjectType`, `buildWhereInputType`, `buildMutationInputType`,
  `buildPaginatedListType`, `buildPoliciesType` and the locale types. Each is a free constructor over its
  arguments. A builder that read the field list lazily would also see the later `password` push; the
  model takes each builder's input when it is called.
- Name helpers and version fields are not modelled: `formatNames`, `toWords`, `formatName`,
  `getCollectionIDType` and `buildVersionCollectionFields` are uninterpreted functions. In particular,
  `version…`/`versions…` names may coincide with other query names, so no survival lemma is stated for
  Query fields, only for Mutation fields.
- `initGlobals` (globals/graphql/init.ts) is not part of this model. The globals write a fixed list of
  entries into each root map.
- Custom `queries`/`mutations` functions see the two root field maps only, not the whole `payload`
  object or the GraphQL library. A result that is not an object counts as `undefined`. A custom function
  is pure, so one that writes into `payload.Query` or `payload.Mutation` in place has that write lost.
- Collections are values held in a sequence on `payload`; sharing of a collection object with other
  holders is not modelled. The registry key is taken to be the collection's slug, and the registry order
  is the `Object.keys` order.
- The root-field blocks take the current Query and Mutation field maps and return them with their
  assignments made; `payload` stores the result once per collection, where the code assigns into
  `payload.Query.fields` one field at a time. Only the type builders and name helpers run in between
  (for instance `buildObjectType` before the version and JWT writes, and `buildPaginatedListType`,
  `buildWhereInputType` and `buildPolicyType` inside the writes), and none of them reads Query or
  Mutation in the model, where they are free constructors.
- The builders' writes into `payload.types` are not modelled. In the code `buildObjectType` and the input
  builders receive `payload` and fill its `arrayTypes`, `groupTypes`, `blockTypes` and other
  sub-registries. In the model the builders are free constructors, so the registry stays at its reset
  value (`CollectionsInit.InitCollectionsGraphQL`, `RegisterSchema.RegisterGraphQLSchema`).
- Fields.FieldAffectsData is given a concrete definition (the field has a name and its type is not `ui`),
  matching Payload's `fieldAffectsData` helper, which is not part of this model. `SyntheticId`'s
  "the where input always has an id" rests on that definition.
- Fields are flat descriptors. Nested groups, arrays, blocks, tabs and field flattening are the builders'
  business and not modelled.
- `createMigration` I/O is not modelled. The directory creation, the logger, `payload.find`,
  `migrationTableExists`, `generateDrizzleJson`, `generateMigration` and `writeFileSync` become arguments
  (the flag, the newest documents, a statement generator) or the method's result.
- The clock is an argument. `new Date().toISOString()` always contains `T`, so the error path only
  arises for an argument that is not an ISO string.
- CreateMigration.ReplaceNonWord: characters are Unicode scalar values. JavaScript's `\W` without the `u`
  flag sees UTF-16 code units, so a character outside the Basic Multilingual Plane becomes `__` there and
  `_` here.
- Drizzle snapshots keep only their identifiers, dialect, version and named definitions; their contents
  are uninterpreted strings.
