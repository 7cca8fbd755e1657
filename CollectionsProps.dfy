/**
 * Properties of collection registration, stated over the specification
 * functions of `CollectionsInit`: which root fields a registration adds,
 * which definition ends up under each name, and what registration does
 * to the collection's own configuration and types.
 */
module CollectionsProps {
  import opened Common
  import opened Fields
  import opened GraphQL
  import opened Payload
  import opened CollectionsInit

  /* --------------------------------------------- entries of an operation list */

  /** The names a list of operations writes. */
  function Names(ops: seq<Operation>, ctx: OpContext): set<string> {
    set op | op in ops :: OperationName(op, ctx.names, ctx.env.formatName)
  }

  /** The i-th entry writes the i-th operation's definition under the operation's name. */
  lemma {:induction false} EntriesAt(ops: seq<Operation>, ctx: OpContext, i: nat)
    requires i < |ops|
    ensures Entries(ops, ctx)[i]
         == Entry(OperationName(ops[i], ctx.names, ctx.env.formatName), Definition(ops[i], ctx))
  {
    if i < |ops| - 1 {
      EntriesAt(ops[..|ops| - 1], ctx, i);
    }
  }

  /** The keys the entries assign are exactly the names of the operations. */
  lemma {:induction false} EntriesKeys(ops: seq<Operation>, ctx: OpContext)
    ensures EntryKeys(Entries(ops, ctx)) == Names(ops, ctx)
  {
    if |ops| > 0 {
      var init, last := ops[..|ops| - 1], ops[|ops| - 1];
      EntriesKeys(init, ctx);
      assert ops == init + [last];
      var es := Entries(ops, ctx);
      var e := Entry(OperationName(last, ctx.names, ctx.env.formatName), Definition(last, ctx));
      assert es == Entries(init, ctx) + [e];
      assert Names(ops, ctx) == Names(init, ctx) + {e.key};
      assert EntryKeys(es) == EntryKeys(Entries(init, ctx)) + {e.key};
    }
  }

  /** Writing a list of operations adds exactly their names to the map's keys. */
  lemma ApplyOpsKeys(m: FieldMap, ops: seq<Operation>, ctx: OpContext)
    ensures ApplyOps(m, ops, ctx).Keys == m.Keys + Names(ops, ctx)
  {
    ApplyKeys(m, Entries(ops, ctx));
    EntriesKeys(ops, ctx);
  }

  /**
   * An operation's definition is what the map holds under its name, unless
   * a later operation of the same list writes the same name.
   */
  lemma ApplyOpsDefinition(m: FieldMap, ops: seq<Operation>, ctx: OpContext, i: nat)
    requires i < |ops|
    requires forall j :: i < j < |ops| ==>
               OperationName(ops[j], ctx.names, ctx.env.formatName) != OperationName(ops[i], ctx.names, ctx.env.formatName)
    ensures OperationName(ops[i], ctx.names, ctx.env.formatName) in ApplyOps(m, ops, ctx)
    ensures ApplyOps(m, ops, ctx)[OperationName(ops[i], ctx.names, ctx.env.formatName)] == Definition(ops[i], ctx)
  {
    var es := Entries(ops, ctx);
    forall j | i <= j < |ops|
      ensures es[j] == Entry(OperationName(ops[j], ctx.names, ctx.env.formatName), Definition(ops[j], ctx))
    {
      EntriesAt(ops, ctx, j);
    }
    ApplyLastWins(m, es, i);
  }

  /* ------------------------------------------------------- mutation names */

  predicate IsQueryOperation(op: Operation) {
    op.FindByID? || op.Find? || op.DocAccess? || op.FindVersionByID? || op.FindVersions? || op.Me? || op.Init?
  }

  /**
   * Recovers a mutation from its root field name by the first letters of
   * its prefix (`create`, `update`, `delete`, `restoreVersion`,
   * `refreshToken`, `logout`, `unlock`, `login`, `forgotPassword`,
   * `resetPassword`, `verifyEmail`).
   */
  function MutationOperationOf(name: string): (r: Option<Operation>)
    ensures r.Some? ==> !IsQueryOperation(r.value)
  {
    if |name| < 5 then None
    else match name[0]
      case 'c' => Some(Create)
      case 'd' => Some(Delete)
      case 'f' => Some(ForgotPassword)
      case 'v' => Some(VerifyEmail)
      case 'u' => if name[1] == 'p' then Some(Update) else Some(Unlock)
      case 'l' => if name[4] == 'n' then Some(Login) else Some(Logout)
      case 'r' =>
        if name[2] == 'f' then Some(Refresh)
        else if name[3] == 't' then Some(RestoreVersion)
        else Some(ResetPassword)
      case _ => None
  }

  /** Every mutation name decodes back to its mutation, whatever the collection's names. */
  lemma MutationNameRoundTrip(op: Operation, names: SlugNames, formatName: string -> string)
    requires !IsQueryOperation(op)
    ensures MutationOperationOf(OperationName(op, names, formatName)) == Some(op)
  {
    var s := names.singular;
    match op
    case Create => assert ("create" + s)[0] == 'c';
    case Update => assert ("update" + s)[..2] == "up";
    case Delete => assert ("delete" + s)[0] == 'd';
    case RestoreVersion => assert ("restoreVersion" + formatName(s))[..4] == "rest";
    case Refresh => assert ("refreshToken" + s)[..3] == "ref";
    case Logout => assert ("logout" + s)[..5] == "logou";
    case Unlock => assert ("unlock" + s)[..2] == "un";
    case Login => assert ("login" + s)[..5] == "login";
    case ForgotPassword => assert ("forgotPassword" + s)[0] == 'f';
    case ResetPassword => assert ("resetPassword" + s)[..4] == "rese";
    case VerifyEmail => assert ("verifyEmail" + s)[0] == 'v';
  }

  /** Two different mutations of a collection never share a root field name. */
  lemma MutationNamesDistinct(a: Operation, b: Operation, names: SlugNames, formatName: string -> string)
    requires !IsQueryOperation(a) && !IsQueryOperation(b) && a != b
    ensures OperationName(a, names, formatName) != OperationName(b, names, formatName)
  {
    MutationNameRoundTrip(a, names, formatName);
    MutationNameRoundTrip(b, names, formatName);
  }

  /** The position of a mutation in the order the source writes them. */
  function MutationRank(op: Operation): int {
    match op
    case Create => 0
    case Update => 1
    case Delete => 2
    case RestoreVersion => 3
    case Refresh => 4
    case Logout => 5
    case Unlock => 6
    case Login => 7
    case ForgotPassword => 8
    case ResetPassword => 9
    case VerifyEmail => 10
    case _ => -1
  }

  predicate Ascending(ops: seq<Operation>) {
    forall i :: 0 <= i < |ops| - 1 ==> MutationRank(ops[i]) < MutationRank(ops[i + 1])
  }

  /** Adjacent ranks ascending means all ranks ascending, so no operation repeats. */
  lemma {:induction false} AscendingDistinct(ops: seq<Operation>)
    requires Ascending(ops)
    ensures forall i, j :: 0 <= i < j < |ops| ==> MutationRank(ops[i]) < MutationRank(ops[j])
  {
    if |ops| > 1 {
      var tail := ops[1..];
      assert Ascending(tail) by {
        forall i | 0 <= i < |tail| - 1 ensures MutationRank(tail[i]) < MutationRank(tail[i + 1]) {
          assert tail[i] == ops[i + 1] && tail[i + 1] == ops[i + 2];
        }
      }
      AscendingDistinct(tail);
      forall i, j | 0 <= i < j < |ops| ensures MutationRank(ops[i]) < MutationRank(ops[j]) {
        assert ops[j] == tail[j - 1];
        if i > 0 {
          assert ops[i] == tail[i - 1];
        } else if j > 1 {
          assert MutationRank(ops[0]) < MutationRank(ops[1]) && ops[1] == tail[0];
        }
      }
    }
  }

  /** Two ascending lists joined where the first ends below the second's start stay ascending. */
  lemma AscendingAppend(a: seq<Operation>, b: seq<Operation>)
    requires Ascending(a) && Ascending(b)
    requires |a| > 0 && |b| > 0 ==> MutationRank(a[|a| - 1]) < MutationRank(b[0])
    ensures Ascending(a + b)
  {
    var ab := a + b;
    forall i | 0 <= i < |ab| - 1 ensures MutationRank(ab[i]) < MutationRank(ab[i + 1]) {
      if i < |a| - 1 {
        assert ab[i] == a[i] && ab[i + 1] == a[i + 1];
      } else if i == |a| - 1 {
        assert ab[i] == a[i] && ab[i + 1] == b[0];
      } else {
        assert ab[i] == b[i - |a|] && ab[i + 1] == b[i + 1 - |a|];
      }
    }
  }

  /** The password mutations are ascending and come after `unlock`. */
  lemma PasswordOpsAscending()
    ensures Ascending(PasswordOps())
    ensures forall i :: 0 <= i < |PasswordOps()| ==> MutationRank(PasswordOps()[i]) >= 7
  {
  }

  /** `unlock` followed by the password mutations is ascending and comes after `logout`. */
  lemma UnlockBlockAscending()
    ensures Ascending([Unlock] + PasswordOps())
    ensures forall i :: 0 <= i < |[Unlock] + PasswordOps()| ==> MutationRank(([Unlock] + PasswordOps())[i]) >= 6
  {
    PasswordOpsAscending();
    AscendingAppend([Unlock], PasswordOps());
    var ops := [Unlock] + PasswordOps();
    forall i | 0 <= i < |ops| ensures MutationRank(ops[i]) >= 6 {
      if i > 0 {
        assert ops[i] == PasswordOps()[i - 1];
      }
    }
  }

  /** The local-strategy mutations are ascending and come after `logout`. */
  lemma LocalStrategyOpsAscending(config: CollectionConfig)
    ensures Ascending(LocalStrategyOps(config))
    ensures forall i :: 0 <= i < |LocalStrategyOps(config)| ==> MutationRank(LocalStrategyOps(config)[i]) >= 6
  {
    if LocalStrategy(config) {
      if config.auth.value.maxLoginAttempts > 0 {
        UnlockBlockAscending();
        assert LocalStrategyOps(config) == [Unlock] + PasswordOps();
      } else {
        PasswordOpsAscending();
        assert LocalStrategyOps(config) == PasswordOps();
      }
    }
  }

  /** The auth mutations are ascending and come after `restoreVersion`. */
  lemma AuthMutationOpsAscending(config: CollectionConfig)
    ensures Ascending(AuthMutationOps(config))
    ensures forall i :: 0 <= i < |AuthMutationOps(config)| ==> MutationRank(AuthMutationOps(config)[i]) >= 4
  {
    if config.auth.Some? {
      LocalStrategyOpsAscending(config);
      var head: seq<Operation> := [Refresh, Logout];
      AscendingAppend(head, LocalStrategyOps(config));
      var ops := head + LocalStrategyOps(config);
      forall i | 0 <= i < |ops| ensures MutationRank(ops[i]) >= 4 {
        if i >= 2 { assert ops[i] == LocalStrategyOps(config)[i - 2]; }
      }
    }
  }

  /** The base and version mutations are ascending and come before `refreshToken`. */
  lemma BaseVersionOpsAscending(config: CollectionConfig)
    ensures var ops := BaseMutationOps() + VersionMutationOps(config);
      && Ascending(ops)
      && forall i :: 0 <= i < |ops| ==> 0 <= MutationRank(ops[i]) < 4
  {
    if config.versions.Some? {
      assert BaseMutationOps() + VersionMutationOps(config) == [Create, Update, Delete, RestoreVersion];
    } else {
      assert BaseMutationOps() + VersionMutationOps(config) == [Create, Update, Delete];
    }
  }

  /** The mutation list of a collection holds mutations only, each at most once. */
  lemma MutationOpsDistinct(config: CollectionConfig)
    ensures forall i :: 0 <= i < |MutationOps(config)| ==> !IsQueryOperation(MutationOps(config)[i])
    ensures forall i, j :: 0 <= i < j < |MutationOps(config)| ==> MutationOps(config)[i] != MutationOps(config)[j]
  {
    var bv, a := BaseMutationOps() + VersionMutationOps(config), AuthMutationOps(config);
    BaseVersionOpsAscending(config);
    AuthMutationOpsAscending(config);
    AscendingAppend(bv, a);
    var ops := bv + a;
    assert ops == MutationOps(config);
    AscendingDistinct(ops);
    forall i | 0 <= i < |ops| ensures MutationRank(ops[i]) >= 0 {
      if i >= |bv| { assert ops[i] == a[i - |bv|]; }
    }
  }

  /**
   * After a collection's mutations are written, every one of them is
   * reachable under its own name with its own definition: no mutation of
   * the collection overwrites another.
   */
  lemma MutationDefinitions(m: FieldMap, config: CollectionConfig, ctx: OpContext, op: Operation)
    requires op in MutationOps(config)
    ensures OperationName(op, ctx.names, ctx.env.formatName) in ApplyOps(m, MutationOps(config), ctx)
    ensures ApplyOps(m, MutationOps(config), ctx)[OperationName(op, ctx.names, ctx.env.formatName)] == Definition(op, ctx)
  {
    var ops := MutationOps(config);
    MutationOpsDistinct(config);
    var i :| 0 <= i < |ops| && ops[i] == op;
    forall j | i < j < |ops|
      ensures OperationName(ops[j], ctx.names, ctx.env.formatName) != OperationName(ops[i], ctx.names, ctx.env.formatName)
    {
      MutationNamesDistinct(ops[j], ops[i], ctx.names, ctx.env.formatName);
    }
    ApplyOpsDefinition(m, ops, ctx, i);
  }

  /* ---------------------------------------------- which operations register */

  /** Every enabled collection registers its three base queries; version and auth queries follow their options. */
  lemma QueryOpsMembers(config: CollectionConfig)
    ensures var ops := QueryOps(config);
      && FindByID in ops && Find in ops && DocAccess in ops
      && (FindVersionByID in ops <==> config.versions.Some?)
      && (FindVersions in ops <==> config.versions.Some?)
      && (Me in ops <==> config.auth.Some?)
      && (Init in ops <==> config.auth.Some?)
      && forall op :: op in ops ==> IsQueryOperation(op)
  {
    var b, v, a := BaseQueryOps(), VersionQueryOps(config), AuthQueryOps(config);
    assert forall op :: op in b + v + a <==> op in b || op in v || op in a;
  }

  /** The local-strategy block: `unlock` only with `maxLoginAttempts > 0`, the password operations always. */
  lemma LocalStrategyOpsMembers(config: CollectionConfig)
    ensures var ops := LocalStrategyOps(config);
      && (Unlock in ops <==> LocalStrategy(config) && config.auth.value.maxLoginAttempts > 0)
      && (forall op :: op in PasswordOps() ==> (op in ops <==> LocalStrategy(config)))
      && forall op :: op in ops ==> op == Unlock || op in PasswordOps()
  {
    if LocalStrategy(config) {
      var u: seq<Operation> := if config.auth.value.maxLoginAttempts > 0 then [Unlock] else [];
      assert forall op :: op in u + PasswordOps() <==> op in u || op in PasswordOps();
    }
  }

  /** The auth block: `refreshToken` and `logout`, then the local-strategy block. */
  lemma AuthMutationOpsMembers(config: CollectionConfig)
    ensures var ops := AuthMutationOps(config);
      && (Refresh in ops <==> config.auth.Some?)
      && (Logout in ops <==> config.auth.Some?)
      && (forall op :: op in LocalStrategyOps(config) ==> op in ops)
      && (forall op :: op in ops ==> op == Refresh || op == Logout || op in LocalStrategyOps(config))
  {
    if config.auth.Some? {
      var l := LocalStrategyOps(config);
      assert forall op :: op in [Refresh, Logout] + l <==> op == Refresh || op == Logout || op in l;
    }
  }

  /** The mutation list is the three blocks, in order. */
  lemma MutationOpsBlocks(config: CollectionConfig)
    ensures forall op :: op in MutationOps(config) <==>
      op in BaseMutationOps() || op in VersionMutationOps(config) || op in AuthMutationOps(config)
  {
    var b, v, a := BaseMutationOps(), VersionMutationOps(config), AuthMutationOps(config);
    assert forall op :: op in b + v + a <==> op in b || op in v || op in a;
  }

  /**
   * Every enabled collection registers create, update and delete;
   * `restoreVersion` needs versions, `refreshToken` and `logout` need auth.
   */
  lemma MutationOpsMembers(config: CollectionConfig)
    ensures var ops := MutationOps(config);
      && Create in ops && Update in ops && Delete in ops
      && (RestoreVersion in ops <==> config.versions.Some?)
      && (Refresh in ops <==> config.auth.Some?)
      && (Logout in ops <==> config.auth.Some?)
  {
    MutationOpsBlocks(config);
    AuthMutationOpsMembers(config);
    LocalStrategyOpsMembers(config);
    assert forall op :: op in BaseMutationOps() <==> op == Create || op == Update || op == Delete;
  }

  /**
   * The password operations are registered exactly for local-strategy auth
   * collections, and `unlock` exactly when `maxLoginAttempts > 0` as well.
   */
  lemma PasswordMutationsMembers(config: CollectionConfig)
    ensures var ops := MutationOps(config);
      && (Unlock in ops <==> LocalStrategy(config) && config.auth.value.maxLoginAttempts > 0)
      && (Login in ops <==> LocalStrategy(config))
      && (ForgotPassword in ops <==> LocalStrategy(config))
      && (ResetPassword in ops <==> LocalStrategy(config))
      && (VerifyEmail in ops <==> LocalStrategy(config))
  {
    MutationOpsBlocks(config);
    AuthMutationOpsMembers(config);
    LocalStrategyOpsMembers(config);
    assert forall op :: op in PasswordOps() <==> op == Login || op == ForgotPassword || op == ResetPassword || op == VerifyEmail;
  }

  /* ----------------------------------------------------- the whole registry */

  predicate Enabled(c: Collection) {
    c.config.graphQL.GraphQLEnabled?
  }

  function NamesOf(env: Collaborators, c: Collection): SlugNames
    requires Enabled(c)
  {
    ResolveNames(env, c.config.slug, c.config.graphQL)
  }

  /** `k` is the root Mutation field name of one of the mutations `c` registers. */
  predicate RegistersMutation(env: Collaborators, c: Collection, k: string) {
    Enabled(c) && k in (set op | op in MutationOps(c.config) :: OperationName(op, NamesOf(env, c), env.formatName))
  }

  /** `k` is the root Query field name of one of the queries `c` registers. */
  predicate RegistersQuery(env: Collaborators, c: Collection, k: string) {
    Enabled(c) && k in (set op | op in QueryOps(c.config) :: OperationName(op, NamesOf(env, c), env.formatName))
  }

  /** Each collection of the registry, initialized, in registry order. */
  function InitializedAll(env: Collaborators, cs: seq<Collection>): (r: seq<Collection>)
    ensures |r| == |cs|
    ensures forall j :: 0 <= j < |cs| ==> r[j] == InitializedCollection(env, cs[j])
  {
    if |cs| == 0 then []
    else InitializedAll(env, cs[..|cs| - 1]) + [InitializedCollection(env, cs[|cs| - 1])]
  }

  /** Registration leaves every collection as `InitializedCollection` of itself, in registry order. */
  lemma {:induction false} RegisterAllCollections(env: Collaborators, localization: Option<Localization>,
                                                  types: TypeRegistry, cs: seq<Collection>, q: FieldMap, m: FieldMap)
    ensures RegisterAll(env, localization, types, cs, q, m).collections == InitializedAll(env, cs)
  {
    if |cs| > 0 {
      var init, c := cs[..|cs| - 1], cs[|cs| - 1];
      RegisterAllCollections(env, localization, types, init, q, m);
    }
  }

  /** A registry without an enabled collection registers nothing and changes no collection. */
  lemma {:induction false} RegisterAllDisabled(env: Collaborators, localization: Option<Localization>,
                                               types: TypeRegistry, cs: seq<Collection>, q: FieldMap, m: FieldMap)
    requires forall j :: 0 <= j < |cs| ==> !Enabled(cs[j])
    ensures RegisterAll(env, localization, types, cs, q, m) == Registration(cs, q, m)
  {
    if |cs| > 0 {
      var init := cs[..|cs| - 1];
      RegisterAllDisabled(env, localization, types, init, q, m);
      assert cs == init + [cs[|cs| - 1]];
    }
  }

  /** Registering `c` adds exactly the names of its queries and mutations to the two maps. */
  lemma RegisterCollectionKeys(env: Collaborators, localization: Option<Localization>, types: TypeRegistry,
                               c: Collection, q: FieldMap, m: FieldMap, k: string)
    ensures var r := RegisterCollection(env, localization, types, c, q, m);
      && (k in r.query <==> k in q || RegistersQuery(env, c, k))
      && (k in r.mutation <==> k in m || RegistersMutation(env, c, k))
  {
    if Enabled(c) {
      var ctx := ContextOf(env, localization, types, c);
      ApplyOpsKeys(q, QueryOps(c.config), ctx);
      ApplyOpsKeys(m, MutationOps(c.config), ctx);
    }
  }

  /** Some collection of `cs` registers a query named `k`, stated collection by collection from the end. */
  predicate AnyRegistersQuery(env: Collaborators, cs: seq<Collection>, k: string) {
    |cs| > 0 && (AnyRegistersQuery(env, cs[..|cs| - 1], k) || RegistersQuery(env, cs[|cs| - 1], k))
  }

  /** Some collection of `cs` registers a mutation named `k`, stated collection by collection from the end. */
  predicate AnyRegistersMutation(env: Collaborators, cs: seq<Collection>, k: string) {
    |cs| > 0 && (AnyRegistersMutation(env, cs[..|cs| - 1], k) || RegistersMutation(env, cs[|cs| - 1], k))
  }

  lemma {:induction false} AnyRegistersQueryExists(env: Collaborators, cs: seq<Collection>, k: string)
    ensures AnyRegistersQuery(env, cs, k) <==> exists j :: 0 <= j < |cs| && RegistersQuery(env, cs[j], k)
  {
    if |cs| > 0 {
      var init := cs[..|cs| - 1];
      AnyRegistersQueryExists(env, init, k);
      if exists j :: 0 <= j < |cs| && RegistersQuery(env, cs[j], k) {
        var j :| 0 <= j < |cs| && RegistersQuery(env, cs[j], k);
        if j < |cs| - 1 {
          assert init[j] == cs[j];
        }
      }
      if AnyRegistersQuery(env, init, k) {
        var j :| 0 <= j < |init| && RegistersQuery(env, init[j], k);
        assert cs[j] == init[j];
      }
    }
  }

  lemma {:induction false} AnyRegistersMutationExists(env: Collaborators, cs: seq<Collection>, k: string)
    ensures AnyRegistersMutation(env, cs, k) <==> exists j :: 0 <= j < |cs| && RegistersMutation(env, cs[j], k)
  {
    if |cs| > 0 {
      var init := cs[..|cs| - 1];
      AnyRegistersMutationExists(env, init, k);
      if exists j :: 0 <= j < |cs| && RegistersMutation(env, cs[j], k) {
        var j :| 0 <= j < |cs| && RegistersMutation(env, cs[j], k);
        if j < |cs| - 1 {
          assert init[j] == cs[j];
        }
      }
      if AnyRegistersMutation(env, init, k) {
        var j :| 0 <= j < |init| && RegistersMutation(env, init[j], k);
        assert cs[j] == init[j];
      }
    }
  }

  lemma {:induction false} RegisterAllKeysStep(env: Collaborators, localization: Option<Localization>,
                                               types: TypeRegistry, cs: seq<Collection>, q: FieldMap, m: FieldMap, k: string)
    ensures var r := RegisterAll(env, localization, types, cs, q, m);
      && (k in r.query <==> k in q || AnyRegistersQuery(env, cs, k))
      && (k in r.mutation <==> k in m || AnyRegistersMutation(env, cs, k))
  {
    if |cs| > 0 {
      var init, c := cs[..|cs| - 1], cs[|cs| - 1];
      RegisterAllKeysStep(env, localization, types, init, q, m, k);
      var r0 := RegisterAll(env, localization, types, init, q, m);
      RegisterCollectionKeys(env, localization, types, c, r0.query, r0.mutation, k);
    }
  }

  /**
   * The Query map after registration holds the keys it held before and the
   * names of the queries the enabled collections register, and nothing else.
   */
  lemma RegisterAllQueryKeys(env: Collaborators, localization: Option<Localization>,
                             types: TypeRegistry, cs: seq<Collection>, q: FieldMap, m: FieldMap, k: string)
    ensures k in RegisterAll(env, localization, types, cs, q, m).query
        <==> k in q || exists j :: 0 <= j < |cs| && RegistersQuery(env, cs[j], k)
  {
    RegisterAllKeysStep(env, localization, types, cs, q, m, k);
    AnyRegistersQueryExists(env, cs, k);
  }

  /**
   * The Mutation map after registration holds the keys it held before and
   * the names of the mutations the enabled collections register, and
   * nothing else.
   */
  lemma RegisterAllMutationKeys(env: Collaborators, localization: Option<Localization>,
                                types: TypeRegistry, cs: seq<Collection>, q: FieldMap, m: FieldMap, k: string)
    ensures k in RegisterAll(env, localization, types, cs, q, m).mutation
        <==> k in m || exists j :: 0 <= j < |cs| && RegistersMutation(env, cs[j], k)
  {
    RegisterAllKeysStep(env, localization, types, cs, q, m, k);
    AnyRegistersMutationExists(env, cs, k);
  }

  /** Registering `c` leaves a Mutation key alone unless `c` registers a mutation of that name. */
  lemma RegisterCollectionKeepsMutation(env: Collaborators, localization: Option<Localization>, types: TypeRegistry,
                                        c: Collection, q: FieldMap, m: FieldMap, k: string)
    requires !RegistersMutation(env, c, k)
    ensures var r := RegisterCollection(env, localization, types, c, q, m);
      && (k in r.mutation <==> k in m)
      && (k in m ==> r.mutation[k] == m[k])
  {
    if Enabled(c) {
      var ctx := ContextOf(env, localization, types, c);
      EntriesKeys(MutationOps(c.config), ctx);
      ApplyUntouched(m, Entries(MutationOps(c.config), ctx), k);
    }
  }

  /** Registering an enabled `c` puts each of its mutations under its name. */
  lemma RegisterCollectionMutation(env: Collaborators, localization: Option<Localization>, types: TypeRegistry,
                                   c: Collection, q: FieldMap, m: FieldMap, op: Operation)
    requires Enabled(c) && op in MutationOps(c.config)
    ensures var r := RegisterCollection(env, localization, types, c, q, m);
            var k := OperationName(op, NamesOf(env, c), env.formatName);
      && k in r.mutation
      && r.mutation[k] == Definition(op, ContextOf(env, localization, types, c))
  {
    MutationDefinitions(m, c.config, ContextOf(env, localization, types, c), op);
  }

  /**
   * A mutation of collection `j` keeps its definition in the final map
   * unless a later collection registers a mutation of the same name: later
   * collections overwrite earlier ones, and nothing else does.
   */
  lemma {:induction false} MutationSurvives(env: Collaborators, localization: Option<Localization>,
                                            types: TypeRegistry, cs: seq<Collection>, q: FieldMap, m: FieldMap,
                                            j: nat, op: Operation)
    requires j < |cs| && Enabled(cs[j]) && op in MutationOps(cs[j].config)
    requires forall l :: j < l < |cs| ==>
               !RegistersMutation(env, cs[l], OperationName(op, NamesOf(env, cs[j]), env.formatName))
    ensures var r := RegisterAll(env, localization, types, cs, q, m);
            var k := OperationName(op, NamesOf(env, cs[j]), env.formatName);
            && k in r.mutation
            && r.mutation[k] == Definition(op, ContextOf(env, localization, types, cs[j]))
  {
    var init, c := cs[..|cs| - 1], cs[|cs| - 1];
    var r0 := RegisterAll(env, localization, types, init, q, m);
    if j == |cs| - 1 {
      RegisterCollectionMutation(env, localization, types, c, r0.query, r0.mutation, op);
    } else {
      assert init[j] == cs[j];
      MutationSurvives(env, localization, types, init, q, m, j, op);
      RegisterCollectionKeepsMutation(env, localization, types, c, r0.query, r0.mutation,
                                      OperationName(op, NamesOf(env, cs[j]), env.formatName));
    }
  }

  /* ----------------------------------------------- the registered collection */

  /** Registration changes only the field list of an enabled collection's configuration. */
  lemma InitializedConfig(env: Collaborators, c: Collection)
    requires Enabled(c)
    ensures var r := InitializedCollection(env, c);
      && r.config == c.config.(fields := FieldsAfterInit(c.config))
      && r.graphQL == Some(BuildCollectionGraphQL(env, c.config, NamesOf(env, c)))
  {
  }

  /**
   * Registering a collection twice gives the same collection exactly when
   * it does not use the local strategy: otherwise every registration
   * appends another `password` field to the shared field list.
   */
  lemma ReRegistration(env: Collaborators, c: Collection)
    requires Enabled(c)
    ensures InitializedCollection(env, InitializedCollection(env, c)) == InitializedCollection(env, c)
        <==> !LocalStrategy(c.config)
    ensures LocalStrategy(c.config) ==>
      InitializedCollection(env, InitializedCollection(env, c)).config.fields
      == c.config.fields + [PasswordField(), PasswordField()]
  {
    var once := InitializedCollection(env, c);
    var twice := InitializedCollection(env, once);
    InitializedConfig(env, c);
    InitializedConfig(env, once);
    ConfigAfterInitTwice(c.config);
    if LocalStrategy(c.config) {
      assert |twice.config.fields| == |once.config.fields| + 1;
    } else {
      assert once.config == c.config;
      assert NamesOf(env, once) == NamesOf(env, c);
    }
  }

  /** The configuration after a second registration: unchanged without the local strategy, a second `password` with it. */
  lemma ConfigAfterInitTwice(config: CollectionConfig)
    ensures var after := config.(fields := FieldsAfterInit(config));
      && LocalStrategy(after) == LocalStrategy(config)
      && (LocalStrategy(config) ==> FieldsAfterInit(after) == config.fields + [PasswordField(), PasswordField()])
      && (!LocalStrategy(config) ==> after == config)
  {
    if LocalStrategy(config) {
      assert config.fields + [PasswordField()] + [PasswordField()] == config.fields + [PasswordField(), PasswordField()];
    }
  }

  /**
   * For a local-strategy auth collection the `password` field reaches both
   * mutation inputs, while the object type and the where input see the
   * field list as it was before the push, and the JWT never carries it.
   */
  lemma PasswordPlacement(env: Collaborators, c: Collection)
    requires Enabled(c) && LocalStrategy(c.config)
    ensures var g := InitializedCollection(env, c).graphQL.value;
      && g.mutationInputType.NonNull? && g.mutationInputType.ofType.MutationInput?
      && PasswordField() in g.mutationInputType.ofType.fields
      && g.updateMutationInputType.NonNull? && g.updateMutationInputType.ofType.MutationInput?
      && PasswordField() in g.updateMutationInputType.ofType.fields
      && g.objectType.ObjectType? && (PasswordField() in g.objectType.fields <==> PasswordField() in c.config.fields)
      && g.whereInputType.WhereInput?
      && (PasswordField() in g.whereInputType.fields <==> PasswordField() in c.config.fields)
      && g.jwt.Some? && g.jwt.value.ObjectType? && PasswordField() !in g.jwt.value.fields
  {
    var after := c.config.(fields := FieldsAfterInit(c.config));
    assert !IsIdField(PasswordField());
    assert PasswordField() != IdWhereField();
    assert !IsJWTField(PasswordField());
    var jwt := JWTTypeFields(after);
    assert forall f :: f in jwt <==> f in JWTFields(after.fields) || f == NamedField("email", Email, true, None)
                                       || f == NamedField("collection", Text, true, None);
  }

  /**
   * The object type gets a synthetic `id` of the collection's ID type
   * exactly when no data field is named `id`; the where input always has
   * an `id` field.
   */
  lemma SyntheticId(env: Collaborators, c: Collection)
    requires Enabled(c)
    ensures var g := InitializedCollection(env, c).graphQL.value;
      && g.objectType.ObjectType? && g.whereInputType.WhereInput?
      && ("id" in g.objectType.baseFields <==> FindIdField(c.config.fields).None?)
      && ("id" in g.objectType.baseFields ==> g.objectType.baseFields["id"] == env.collectionIDType(c.config))
      && FindIdField(g.whereInputType.fields).Some?
      && g.whereInputType.fields
         == (if FindIdField(c.config.fields).None? then c.config.fields + [IdWhereField()] else c.config.fields)
  {
    var fields := c.config.fields;
    if FindIdField(fields).None? {
      var w := fields + [IdWhereField()];
      assert IsIdField(w[|w| - 1]);
    }
  }

  /** The update input omits the `id` field and keeps every other field of the collection. */
  lemma UpdateInputOmitsId(env: Collaborators, c: Collection)
    requires Enabled(c)
    ensures var r := InitializedCollection(env, c);
            var g := r.graphQL.value;
      && g.updateMutationInputType.NonNull? && g.updateMutationInputType.ofType.MutationInput?
      && g.updateMutationInputType.ofType.forceNullable
      && forall f :: f in g.updateMutationInputType.ofType.fields <==> f in r.config.fields && !IsIdField(f)
  {
  }
}
