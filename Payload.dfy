/**
 * The configuration and the `payload` object that schema registration
 * reads and updates, and the collaborators it calls whose code is not part
 * of this model (name formatting, the adapter's identifier type, version
 * fields and global registration).
 */
module Payload {
  import opened Common
  import opened Fields
  import opened GraphQL

  datatype Auth = Auth(disableLocalStrategy: bool, maxLoginAttempts: int)

  datatype Versions = Versions(drafts: bool)

  /**
   * A collection's `graphQL` setting: `false` disables it; otherwise the
   * optional name overrides, where "" stands for an absent (falsy) one.
   */
  datatype GraphQLOverrides =
    | GraphQLDisabled
    | GraphQLEnabled(singularName: string, pluralName: string)

  datatype CollectionConfig = CollectionConfig(
    slug: string,
    fields: seq<Field>,
    graphQL: GraphQLOverrides,
    versions: Option<Versions>,
    auth: Option<Auth>)

  /** `collection.graphQL`: the types built for a registered collection. */
  datatype CollectionGraphQL = CollectionGraphQL(
    objectType: GqlType,
    paginatedType: GqlType,
    whereInputType: GqlType,
    mutationInputType: GqlType,
    updateMutationInputType: GqlType,
    versionType: Option<GqlType>,
    jwt: Option<GqlType>)

  datatype Collection = Collection(config: CollectionConfig, graphQL: Option<CollectionGraphQL>)

  datatype Localization = Localization(locales: seq<string>)

  /**
   * `config.graphQL.queries` / `.mutations`: either not a function, or a
   * function of the payload (here: of its current Query and Mutation
   * fields) returning extra fields, or nothing (null or undefined).
   */
  datatype CustomFields =
    | NotAFunction
    | CustomFunction(fn: (FieldMap, FieldMap) -> Option<FieldMap>)

  datatype GraphQLConfig = GraphQLConfig(queries: CustomFields, mutations: CustomFields, maxComplexity: int)

  datatype Config = Config(localization: Option<Localization>, graphQL: GraphQLConfig)

  datatype SlugNames = SlugNames(singular: string, plural: string)

  /**
   * Collaborators whose code is not part of this model, left uninterpreted:
   * `formatNames`, `toWords(_, true)`, `formatName`, `getCollectionIDType`,
   * `buildVersionCollectionFields`, and the entries `initGlobalsGraphQL`
   * writes into the Query and Mutation maps.
   */
  datatype Collaborators = Collaborators(
    formatNames: string -> SlugNames,
    toWords: string -> string,
    formatName: string -> string,
    collectionIDType: CollectionConfig -> GqlType,
    versionCollectionFields: CollectionConfig -> seq<Field>,
    globalQueryEntries: seq<Entry>,
    globalMutationEntries: seq<Entry>)

  /** The part of the `payload` object that schema registration reads and writes. */
  class Payload {
    const config: Config
    var collections: seq<Collection>   // `payload.collections`, in `Object.keys` order
    var types: TypeRegistry
    var query: RootType
    var mutation: RootType

    constructor (config: Config, collections: seq<Collection>)
      ensures this.config == config && this.collections == collections
      ensures types == TypeRegistry(map[], map[], map[], map[], map[], Undefined, Undefined)
      ensures query == RootType("Query", map[]) && mutation == RootType("Mutation", map[])
    {
      this.config := config;
      this.collections := collections;
      types := TypeRegistry(map[], map[], map[], map[], map[], Undefined, Undefined);
      query := RootType("Query", map[]);
      mutation := RootType("Mutation", map[]);
    }
  }
}
