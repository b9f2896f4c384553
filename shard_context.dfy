/** `RewriterShardContext`: the per-shard cache of rewriter factories. A
    rewriter id is looked up in the cache first and loaded from the rewriter
    index only on a miss; only a successful load is cached. */
module ShardCache {
  import opened Wrappers
  import opened Exceptions
  import opened Values
  import opened Collections
  import opened RewriterConfigMapping
  import opened OpenSearchRewriterFactory
  import PutRewriterRequest

  /** `ShardId`: an index and a shard number. */
  datatype ShardId = ShardId(index: string, shardNumber: int)

  /** `createRewriterFactory(shard)`, whose result is the Querqy library's
      own object: modelled by the factory it came from and the shard. */
  datatype RewriterFactory = RewriterFactory(from: Factory, shard: ShardId)

  /** `RewriterFactoryAndLogging`, one cache entry. */
  datatype Entry = RewriterFactoryAndLogging(rewriterFactory: RewriterFactory, loggingEnabled: bool)

  /** `RewriteChainAndLogging`: the factories of a rewrite chain and the ids
      whose rewriters log. */
  datatype RewriteChainAndLogging = RewriteChainAndLogging(chain: seq<RewriterFactory>, loggingEnabledRewriters: set<string>)

  /** The rewriter index as the shard's client sees it: the stored
      definitions by id, and the ids whose `get` fails (it is interrupted or
      fails to execute). */
  datatype Store = Store(documents: map<string, JavaMap>, failing: set<string>)

  /** What loading needs beyond the store: the factory classes that exist and
      the JSON codec of the stored configuration. */
  datatype Environment = Environment(registry: Registry, codec: JsonCodec)

  /** The rule that decides whether a rewriter logs: its `sinks` is
      `"log4j"`, or a non-empty collection that contains `"log4j"`. */
  function LoggingEnabled(infoLogging: Option<JavaMap>): (r: bool)
    ensures r <==>
      && infoLogging.Some?
      && (Get(infoLogging.value, "sinks") == Str("log4j")
          || (Get(infoLogging.value, "sinks").List? && Str("log4j") in Get(infoLogging.value, "sinks").items))
  {
    if infoLogging.None? then false
    else
      match Get(infoLogging.value, "sinks")
      case Str(s) => s == "log4j"
      case List(items) => |items| > 0 && ListContains(items, "log4j")
      case _ => false
  }

  /** For `sinks` values that a put request accepts, the logging rule
      reduces to: logging is on exactly for `"log4j"` and `["log4j"]`. */
  lemma AcceptedSinksLogging(infoLogging: JavaMap)
    requires PutRewriterRequest.CheckSinks(Get(infoLogging, "sinks")) == Success(None)
    ensures LoggingEnabled(Some(infoLogging))
      <==> Get(infoLogging, "sinks") == Str("log4j") || Get(infoLogging, "sinks") == List([Str("log4j")])
  {
    var sinks := Get(infoLogging, "sinks");
    if sinks.List? && sinks.items != [] {
      assert sinks.items == [Str("log4j")];
    }
  }

  /** The part of `loadFactory` that runs on a miss or a forced load: read
      the definition, check it, and create and configure the factory. */
  function LoadEntry(rewriterId: string, store: Store, shardId: ShardId, env: Environment): (r: Result<Entry, JavaException>)
    ensures rewriterId in store.failing ==>
      r == Failure(JavaException(OpenSearchException, "Could not load rewriter " + rewriterId))
    ensures rewriterId !in store.failing && rewriterId !in store.documents ==>
      r == Failure(JavaException(ResourceNotFoundException, "Rewriter not found: " + rewriterId))
    ensures rewriterId !in store.failing && rewriterId in store.documents
            && Get(store.documents[rewriterId], PROP_TYPE) != Str(TYPE_REWRITER) ==>
      r == Failure(JavaException(InvalidTypeNameException, "Not a rewriter: " + rewriterId))
  {
    if rewriterId in store.failing then
      Failure(JavaException(OpenSearchException, "Could not load rewriter " + rewriterId))
    else if rewriterId !in store.documents then
      Failure(JavaException(ResourceNotFoundException, "Rewriter not found: " + rewriterId))
    else
      var source := store.documents[rewriterId];
      if Get(source, PROP_TYPE) != Str(TYPE_REWRITER) then
        Failure(JavaException(InvalidTypeNameException, "Not a rewriter: " + rewriterId))
      else
        var loadConfig :- NewLoadRewriterConfig(rewriterId, source, env.codec);
        var loggingEnabled := LoggingEnabled(loadConfig.infoLoggingConfig);
        var factory :- LoadConfiguredInstance(loadConfig, env.registry);
        Success(RewriterFactoryAndLogging(RewriterFactory(factory, shardId), loggingEnabled))
  }

  /** For a stored rewriter definition the loaders' exceptions propagate:
      the configuration's first, then the instance's, and the entry is
      loaded exactly when both loaders succeed. */
  lemma LoadEntryFromDefinition(rewriterId: string, store: Store, shardId: ShardId, env: Environment)
    requires rewriterId !in store.failing && rewriterId in store.documents
    requires Get(store.documents[rewriterId], PROP_TYPE) == Str(TYPE_REWRITER)
    ensures var r := LoadEntry(rewriterId, store, shardId, env);
      var loadConfig := NewLoadRewriterConfig(rewriterId, store.documents[rewriterId], env.codec);
      && (loadConfig.Failure? ==> r == Failure(loadConfig.error))
      && (loadConfig.Success? && LoadConfiguredInstance(loadConfig.value, env.registry).Failure? ==>
            r == Failure(LoadConfiguredInstance(loadConfig.value, env.registry).error))
      && (r.Success? <==> loadConfig.Success? && LoadConfiguredInstance(loadConfig.value, env.registry).Success?)
  {
  }

  /** A loaded entry holds the factory the stored definition names,
      created for the requested id and this shard and configured, and the
      logging decision for the definition's `info_logging`. */
  lemma LoadedEntry(rewriterId: string, store: Store, shardId: ShardId, env: Environment)
    requires LoadEntry(rewriterId, store, shardId, env).Success?
    ensures var entry := LoadEntry(rewriterId, store, shardId, env).value;
      && rewriterId in store.documents
      && Get(store.documents[rewriterId], PROP_TYPE) == Str(TYPE_REWRITER)
      && var loadConfig := NewLoadRewriterConfig(rewriterId, store.documents[rewriterId], env.codec);
      && loadConfig.Success?
      && entry.loggingEnabled == LoggingEnabled(loadConfig.value.infoLoggingConfig)
      && LoadConfiguredInstance(loadConfig.value, env.registry) == Success(entry.rewriterFactory.from)
      && entry.rewriterFactory.from.GetRewriterId() == rewriterId
      && entry.rewriterFactory.from.configuredWith == Some(loadConfig.value.config)
      && entry.rewriterFactory.shard == shardId
  {
  }

  /** The state of `getRewriteChain` after some of the requested ids: the
      cache, the chain and logging set built so far, the exception that ended
      the loop, if any, and the number of store reads. */
  datatype Resolved = Resolved(
    cache: map<string, Entry>,
    chain: seq<RewriterFactory>,
    logging: set<string>,
    error: Option<JavaException>,
    lookups: nat)

  /** One iteration of the loop of `getRewriteChain`. */
  function ResolveStep(r: Resolved, rewriterId: string, store: Store, shardId: ShardId, env: Environment): Resolved {
    if r.error.Some? then r
    else if rewriterId in r.cache then
      var entry := r.cache[rewriterId];
      r.(chain := r.chain + [entry.rewriterFactory],
         logging := if entry.loggingEnabled then r.logging + {rewriterId} else r.logging)
    else
      match LoadEntry(rewriterId, store, shardId, env)
      case Failure(e) => r.(error := Some(e), lookups := r.lookups + 1)
      case Success(entry) =>
        Resolved(r.cache[rewriterId := entry], r.chain + [entry.rewriterFactory],
                 if entry.loggingEnabled then r.logging + {rewriterId} else r.logging, None, r.lookups + 1)
  }

  /** The loop of `getRewriteChain` over `rewriterIds`, from `cache`. */
  function Resolve(cache: map<string, Entry>, rewriterIds: seq<string>, store: Store, shardId: ShardId, env: Environment): Resolved {
    if rewriterIds == [] then Resolved(cache, [], {}, None, 0)
    else ResolveStep(Resolve(cache, rewriterIds[..|rewriterIds| - 1], store, shardId, env),
                     rewriterIds[|rewriterIds| - 1], store, shardId, env)
  }

  lemma ResolveSnoc(cache: map<string, Entry>, init: seq<string>, last: string, store: Store, shardId: ShardId, env: Environment)
    ensures Resolve(cache, init + [last], store, shardId, env)
      == ResolveStep(Resolve(cache, init, store, shardId, env), last, store, shardId, env)
  {
    SnocInit(init, last);
  }

  /** Once an id fails to load, the rest of the loop is skipped: the result
      and the cache stay as the failure left them. */
  lemma {:induction false} ResolveFailureIsFinal(cache: map<string, Entry>, rewriterIds: seq<string>, k: nat,
                                                 store: Store, shardId: ShardId, env: Environment)
    requires k <= |rewriterIds|
    requires Resolve(cache, rewriterIds[..k], store, shardId, env).error.Some?
    ensures Resolve(cache, rewriterIds, store, shardId, env) == Resolve(cache, rewriterIds[..k], store, shardId, env)
  {
    if k < |rewriterIds| {
      var init, last := rewriterIds[..|rewriterIds| - 1], rewriterIds[|rewriterIds| - 1];
      assert rewriterIds == init + [last];
      assert init[..k] == rewriterIds[..k];
      ResolveFailureIsFinal(cache, init, k, store, shardId, env);
      ResolveSnoc(cache, init, last, store, shardId, env);
    } else {
      assert rewriterIds[..k] == rewriterIds;
    }
  }

  /** `getRewriteChain` keeps the entries that were cached before as they
      were, and adds entries only for requested ids. */
  lemma {:induction false} ResolveKeepsCache(cache: map<string, Entry>, rewriterIds: seq<string>, store: Store, shardId: ShardId, env: Environment)
    ensures var r := Resolve(cache, rewriterIds, store, shardId, env);
      && (forall k :: k in cache ==> k in r.cache && r.cache[k] == cache[k])
      && (forall k :: k in r.cache ==> k in cache || k in rewriterIds)
  {
    if rewriterIds != [] {
      var init, last := rewriterIds[..|rewriterIds| - 1], rewriterIds[|rewriterIds| - 1];
      assert rewriterIds == init + [last];
      ResolveKeepsCache(cache, init, store, shardId, env);
    }
  }

  /** Within one `getRewriteChain` no entry is replaced: every entry of an
      earlier state is still there in a later one. */
  lemma ResolveStepKeeps(r: Resolved, rewriterId: string, store: Store, shardId: ShardId, env: Environment)
    ensures var n := ResolveStep(r, rewriterId, store, shardId, env);
      && (forall k :: k in r.cache ==> k in n.cache && n.cache[k] == r.cache[k])
      && (n.error.None? ==>
            && r.error.None? && rewriterId in n.cache
            && n.chain == r.chain + [n.cache[rewriterId].rewriterFactory]
            && n.logging == if n.cache[rewriterId].loggingEnabled then r.logging + {rewriterId} else r.logging)
  {
    if r.error.None? && rewriterId !in r.cache {
      var n := ResolveStep(r, rewriterId, store, shardId, env);
      match LoadEntry(rewriterId, store, shardId, env)
      case Success(entry) =>
        assert n == Resolved(r.cache[rewriterId := entry], r.chain + [entry.rewriterFactory],
                             if entry.loggingEnabled then r.logging + {rewriterId} else r.logging, None, r.lookups + 1);
      case Failure(e) =>
        assert n.error == Some(e);
    }
  }

  /** A successful `getRewriteChain` returns one factory per requested id,
      in the requested order and with duplicates: the factory the cache
      holds for that id afterwards. */
  lemma {:induction false} ResolveChain(cache: map<string, Entry>, rewriterIds: seq<string>, store: Store, shardId: ShardId, env: Environment)
    ensures var r := Resolve(cache, rewriterIds, store, shardId, env);
      r.error.None? ==>
        && |r.chain| == |rewriterIds|
        && (forall i :: 0 <= i < |rewriterIds| ==>
              rewriterIds[i] in r.cache && r.chain[i] == r.cache[rewriterIds[i]].rewriterFactory)
  {
    if rewriterIds != [] {
      var init, last := rewriterIds[..|rewriterIds| - 1], rewriterIds[|rewriterIds| - 1];
      assert rewriterIds == init + [last];
      var p := Resolve(cache, init, store, shardId, env);
      var r := Resolve(cache, rewriterIds, store, shardId, env);
      assert r == ResolveStep(p, last, store, shardId, env);
      ResolveStepKeeps(p, last, store, shardId, env);
      if r.error.None? {
        ResolveChain(cache, init, store, shardId, env);
        forall i | 0 <= i < |rewriterIds|
          ensures rewriterIds[i] in r.cache && r.chain[i] == r.cache[rewriterIds[i]].rewriterFactory
        {
          if i < |init| {
            assert rewriterIds[i] == init[i];
            assert r.chain[i] == p.chain[i];
          }
        }
      }
    }
  }

  /** The logging set of a successful `getRewriteChain` is exactly the
      requested ids whose entry has logging enabled. */
  lemma {:induction false} ResolveLogging(cache: map<string, Entry>, rewriterIds: seq<string>, store: Store, shardId: ShardId, env: Environment)
    ensures var r := Resolve(cache, rewriterIds, store, shardId, env);
      r.error.None? ==>
        forall id :: id in r.logging <==> id in rewriterIds && id in r.cache && r.cache[id].loggingEnabled
  {
    if rewriterIds != [] {
      var init, last := rewriterIds[..|rewriterIds| - 1], rewriterIds[|rewriterIds| - 1];
      assert rewriterIds == init + [last];
      var p := Resolve(cache, init, store, shardId, env);
      var r := Resolve(cache, rewriterIds, store, shardId, env);
      assert r == ResolveStep(p, last, store, shardId, env);
      ResolveStepKeeps(p, last, store, shardId, env);
      if r.error.None? {
        ResolveLogging(cache, init, store, shardId, env);
        ResolveChain(cache, init, store, shardId, env);
        forall id ensures id in r.logging <==> id in rewriterIds && id in r.cache && r.cache[id].loggingEnabled {
          assert id in rewriterIds <==> id in init || id == last;
          if id in init {
            var j :| 0 <= j < |init| && init[j] == id;
            assert id in p.cache;
          }
        }
      }
    }
  }

  /** When every requested id is cached, the store is not read at all (so a
      definition deleted after caching makes no difference), the cache does
      not change and the chain is served from it. */
  lemma {:induction false} AllCachedReadsNothing(cache: map<string, Entry>, rewriterIds: seq<string>,
                                                 store: Store, other: Store, shardId: ShardId, env: Environment)
    requires forall i :: 0 <= i < |rewriterIds| ==> rewriterIds[i] in cache
    ensures var r := Resolve(cache, rewriterIds, store, shardId, env);
      && r.lookups == 0 && r.error.None? && r.cache == cache
      && r == Resolve(cache, rewriterIds, other, shardId, env)
  {
    if rewriterIds != [] {
      var init := rewriterIds[..|rewriterIds| - 1];
      assert forall i :: 0 <= i < |init| ==> init[i] == rewriterIds[i];
      AllCachedReadsNothing(cache, init, store, other, shardId, env);
    }
  }

  /** An id that is not cached is read from the store exactly once per
      `getRewriteChain` of it alone. */
  lemma MissReadsOnce(cache: map<string, Entry>, rewriterId: string, store: Store, shardId: ShardId, env: Environment)
    requires rewriterId !in cache
    ensures var r := Resolve(cache, [rewriterId], store, shardId, env);
      && r.lookups == 1
      && (r.error.None? <==> LoadEntry(rewriterId, store, shardId, env).Success?)
      && (r.error.Some? ==> r.cache == cache)
  {
    assert [rewriterId][..0] == [];
  }

  /** The cache after `reloadRewriter(rewriterId)`, or the exception of the
      forced load: an id that is not cached is left alone. */
  function Reloaded(cache: map<string, Entry>, rewriterId: string, store: Store, shardId: ShardId, env: Environment)
    : Result<map<string, Entry>, JavaException>
  {
    if rewriterId !in cache then Success(cache)
    else
      match LoadEntry(rewriterId, store, shardId, env)
      case Success(entry) => Success(cache[rewriterId := entry])
      case Failure(e) => Failure(e)
  }

  /** A reload changes at most the entry of the reloaded id, never adds an
      id, and does not fail for an id that is not cached. */
  lemma ReloadTouchesOnlyItsId(cache: map<string, Entry>, rewriterId: string, store: Store, shardId: ShardId, env: Environment)
    ensures rewriterId !in cache ==> Reloaded(cache, rewriterId, store, shardId, env) == Success(cache)
    ensures Reloaded(cache, rewriterId, store, shardId, env).Success? ==>
      var after := Reloaded(cache, rewriterId, store, shardId, env).value;
      && after.Keys == cache.Keys
      && forall k :: k in cache && k != rewriterId ==> after[k] == cache[k]
  {
  }

  class RewriterShardContext {
    const shardId: ShardId
    const env: Environment
    /** `factories`, the cache. */
    var factories: map<string, Entry>
    /** The number of reads of the rewriter index so far. */
    ghost var storeReads: nat

    constructor (shardId: ShardId, env: Environment)
      ensures this.shardId == shardId && this.env == env
      ensures factories == map[] && storeReads == 0
    {
      this.shardId := shardId;
      this.env := env;
      factories := map[];
      storeReads := 0;
    }

    /** `loadFactory(rewriterId, forceLoad)`. */
    method LoadFactory(rewriterId: string, forceLoad: bool, store: Store) returns (result: Result<Entry, JavaException>)
      modifies this
      ensures !forceLoad && rewriterId in old(factories) ==>
        && result == Success(old(factories)[rewriterId])
        && factories == old(factories) && storeReads == old(storeReads)
      ensures forceLoad || rewriterId !in old(factories) ==>
        && result == LoadEntry(rewriterId, store, shardId, env)
        && storeReads == old(storeReads) + 1
        && factories == if result.Success? then old(factories)[rewriterId := result.value] else old(factories)
    {
      if !forceLoad && rewriterId in factories {
        return Success(factories[rewriterId]);
      }
      storeReads := storeReads + 1;
      result := LoadFromStore(rewriterId, store);
      if result.Success? {
        factories := factories[rewriterId := result.value];
      }
    }

    /** The store read and the checks of `loadFactory`, up to the new entry. */
    method LoadFromStore(rewriterId: string, store: Store) returns (result: Result<Entry, JavaException>)
      ensures result == LoadEntry(rewriterId, store, shardId, env)
    {
      if rewriterId in store.failing {
        return Failure(JavaException(OpenSearchException, "Could not load rewriter " + rewriterId));
      }
      if rewriterId !in store.documents {
        return Failure(JavaException(ResourceNotFoundException, "Rewriter not found: " + rewriterId));
      }
      var source := store.documents[rewriterId];
      if Get(source, PROP_TYPE) != Str(TYPE_REWRITER) {
        return Failure(JavaException(InvalidTypeNameException, "Not a rewriter: " + rewriterId));
      }
      var loadConfig := NewLoadRewriterConfig(rewriterId, source, env.codec);
      if loadConfig.Failure? {
        return Failure(loadConfig.error);
      }
      var loggingEnabled := LoggingEnabled(loadConfig.value.infoLoggingConfig);
      var factory := LoadConfiguredInstance(loadConfig.value, env.registry);
      if factory.Failure? {
        return Failure(factory.error);
      }
      return Success(RewriterFactoryAndLogging(RewriterFactory(factory.value, shardId), loggingEnabled));
    }

    /** `getRewriteChain(rewriterIds)`. */
    method GetRewriteChain(rewriterIds: seq<string>, store: Store) returns (result: Result<RewriteChainAndLogging, JavaException>)
      modifies this
      ensures var r := Resolve(old(factories), rewriterIds, store, shardId, env);
        && factories == r.cache
        && storeReads == old(storeReads) + r.lookups
        && result == if r.error.Some? then Failure(r.error.value) else Success(RewriteChainAndLogging(r.chain, r.logging))
    {
      var rewriterFactories: seq<RewriterFactory> := [];
      var loggingEnabledRewriters: set<string> := {};
      for i := 0 to |rewriterIds|
        invariant var r := Resolve(old(factories), rewriterIds[..i], store, shardId, env);
          && r.error.None? && factories == r.cache && storeReads == old(storeReads) + r.lookups
          && rewriterFactories == r.chain && loggingEnabledRewriters == r.logging
      {
        var id := rewriterIds[i];
        PrefixExtend(rewriterIds, i);
        ResolveSnoc(old(factories), rewriterIds[..i], id, store, shardId, env);
        var factoryAndLogging: Entry;
        if id in factories {
          factoryAndLogging := factories[id];
        } else {
          var loaded := LoadFactory(id, false, store);
          if loaded.Failure? {
            ResolveFailureIsFinal(old(factories), rewriterIds, i + 1, store, shardId, env);
            return Failure(loaded.error);
          }
          factoryAndLogging := loaded.value;
        }
        rewriterFactories := rewriterFactories + [factoryAndLogging.rewriterFactory];
        if factoryAndLogging.loggingEnabled {
          loggingEnabledRewriters := loggingEnabledRewriters + {id};
        }
      }
      assert rewriterIds[..|rewriterIds|] == rewriterIds;
      return Success(RewriteChainAndLogging(rewriterFactories, loggingEnabledRewriters));
    }

    /** `clearRewriter(rewriterId)`: only that id is invalidated. */
    method ClearRewriter(rewriterId: string)
      modifies this
      ensures factories == old(factories) - {rewriterId}
      ensures storeReads == old(storeReads)
    {
      factories := factories - {rewriterId};
    }

    /** `clearRewriters()`: the cache is emptied. */
    method ClearRewriters()
      modifies this
      ensures factories == map[]
      ensures storeReads == old(storeReads)
    {
      factories := map[];
    }

    /** `reloadRewriter(rewriterId)`: nothing for an id that is not cached,
      a forced load otherwise. */
    method ReloadRewriter(rewriterId: string, store: Store) returns (outcome: Outcome<JavaException>)
      modifies this
      ensures var reloaded := Reloaded(old(factories), rewriterId, store, shardId, env);
        && (reloaded.Success? ==> outcome == Pass && factories == reloaded.value)
        && (reloaded.Failure? ==> outcome == Fail(reloaded.error) && factories == old(factories))
      ensures storeReads == old(storeReads) + if rewriterId in old(factories) then 1 else 0
    {
      if rewriterId in factories {
        var loaded := LoadFactory(rewriterId, true, store);
        if loaded.Failure? {
          return Fail(loaded.error);
        }
      }
      return Pass;
    }
  }
}
