/** `RewriterShardContexts`: the registry of per-shard caches, one per
    shard, created on the first query on that shard and dropped when the
    shard is closed or its routing changes. Clearing and reloading fan out
    to every cache. */
module ShardCaches {
  import opened Wrappers
  import opened Exceptions
  import opened Collections
  import opened ShardCache

  /** The ids in `order` without `shardId`, in the same order. */
  function Without(order: seq<ShardId>, shardId: ShardId): (r: seq<ShardId>)
    ensures forall s :: s in r <==> s in order && s != shardId
    ensures Distinct(order) ==> Distinct(r) && |r| == |order| - (if shardId in order then 1 else 0)
  {
    if order == [] then []
    else
      var init, last := order[..|order| - 1], order[|order| - 1];
      assert order == init + [last];
      var rest := Without(init, shardId);
      DistinctSnoc(init, last);
      DistinctSnoc(rest, last);
      if last == shardId then rest else rest + [last]
  }

  class RewriterShardContexts {
    const env: Environment
    /** `shardContexts`. */
    var shardContexts: map<ShardId, RewriterShardContext>
    /** The order in which `forEach` visits the caches: the concurrent map's
        iteration order is not specified, so the model fixes one, the order
        of creation. */
    var order: seq<ShardId>

    /** Every registered shard is visited once, and each cache belongs to
        the shard it is registered under (so no cache is registered twice). */
    ghost predicate Valid()
      reads this
    {
      && Distinct(order)
      && |order| == |shardContexts|
      && (forall s :: s in shardContexts <==> s in order)
      && (forall s :: s in shardContexts ==> shardContexts[s].shardId == s && shardContexts[s].env == env)
    }

    constructor (env: Environment)
      ensures Valid()
      ensures this.env == env && shardContexts == map[] && order == []
    {
      this.env := env;
      shardContexts := map[];
      order := [];
    }

    /** `loadShardContext(shardId)`: the registered cache, or a new empty
        one that is registered. */
    method LoadShardContext(shardId: ShardId) returns (shardContext: RewriterShardContext)
      requires Valid()
      modifies this
      ensures Valid()
      ensures shardId in shardContexts && shardContexts[shardId] == shardContext
      ensures shardId in old(shardContexts) ==>
        shardContexts == old(shardContexts) && order == old(order)
      ensures shardId !in old(shardContexts) ==>
        && fresh(shardContext) && shardContext.factories == map[] && shardContext.storeReads == 0
        && shardContexts == old(shardContexts)[shardId := shardContext]
        && order == old(order) + [shardId]
    {
      if shardId in shardContexts {
        return shardContexts[shardId];
      }
      shardContext := new RewriterShardContext(shardId, env);
      shardContexts := shardContexts[shardId := shardContext];
      DistinctSnoc(order, shardId);
      order := order + [shardId];
    }

    /** `getRewriteChain(rewriterIds, context)`: the chain from the cache of
        the query's shard, which is created first if there is none. */
    method GetRewriteChain(rewriterIds: seq<string>, shardId: ShardId, store: Store)
      returns (result: Result<RewriteChainAndLogging, JavaException>)
      requires Valid()
      modifies this, shardContexts.Values
      ensures Valid()
      ensures shardId in shardContexts
      ensures forall s :: s in old(shardContexts) ==> s in shardContexts && shardContexts[s] == old(shardContexts[s])
      ensures forall s :: s in shardContexts <==> s in old(shardContexts) || s == shardId
      ensures var before := if shardId in old(shardContexts) then old(shardContexts[shardId].factories) else map[];
        var r := Resolve(before, rewriterIds, store, shardId, env);
        && shardContexts[shardId].factories == r.cache
        && result == if r.error.Some? then Failure(r.error.value) else Success(RewriteChainAndLogging(r.chain, r.logging))
      ensures forall s :: s in old(shardContexts) && s != shardId ==>
        shardContexts[s].factories == old(shardContexts[s].factories)
    {
      var shardContext: RewriterShardContext;
      if shardId in shardContexts {
        shardContext := shardContexts[shardId];
      } else {
        shardContext := LoadShardContext(shardId);
      }
      ghost var contexts := shardContexts;
      assert forall s :: s in contexts && s != shardId ==> contexts[s] != shardContext by {
        assert forall s :: s in contexts ==> contexts[s].shardId == s;
      }
      result := shardContext.GetRewriteChain(rewriterIds, store);
      assert shardContexts == contexts;
      assert forall s :: s in contexts && s != shardId ==> contexts[s].factories == old(contexts[s].factories);
    }

    /** The caches in visiting order; no cache occurs twice. */
    ghost function Visited(): (r: seq<RewriterShardContext>)
      requires Valid()
      reads this
      ensures |r| == |order|
      ensures forall j :: 0 <= j < |order| ==> order[j] in shardContexts && r[j] == shardContexts[order[j]]
      ensures forall j, k :: 0 <= j < |order| && 0 <= k < |order| && j != k ==> r[j] != r[k]
    {
      var ids, contexts := order, shardContexts;
      assert forall j :: 0 <= j < |ids| ==> ids[j] in contexts;
      var r := seq(|ids|, j requires 0 <= j < |ids| && ids[j] in contexts => contexts[ids[j]]);
      assert forall j :: 0 <= j < |ids| ==> r[j].shardId == ids[j];
      r
    }

    /** `reloadRewriter(rewriterId)`: every cache reloads the id in turn;
        the first failure is rethrown as "Could not reload rewriter <id>"
        and the caches after it are not reloaded. `failedAt` is the position
        of the failing cache in the visiting order, or the number of caches. */
    method ReloadRewriter(rewriterId: string, store: Store)
      returns (outcome: Outcome<JavaException>, ghost failedAt: nat)
      requires Valid()
      modifies shardContexts.Values
      ensures failedAt <= |order|
      ensures outcome == if failedAt < |order| then Fail(JavaException(OpenSearchException, "Could not reload rewriter " + rewriterId))
                         else Pass
      ensures forall j :: 0 <= j < failedAt ==>
        Reloaded(old(shardContexts[order[j]].factories), rewriterId, store, order[j], env)
          == Success(shardContexts[order[j]].factories)
      ensures failedAt < |order| ==>
        Reloaded(old(shardContexts[order[failedAt]].factories), rewriterId, store, order[failedAt], env).Failure?
      ensures forall j :: failedAt <= j < |order| ==>
        shardContexts[order[j]].factories == old(shardContexts[order[j]].factories)
    {
      ghost var visited := Visited();
      for i := 0 to |order|
        invariant forall j :: 0 <= j < i ==>
          Reloaded(old(visited[j].factories), rewriterId, store, visited[j].shardId, env) == Success(visited[j].factories)
        invariant forall j :: i <= j < |order| ==> visited[j].factories == old(visited[j].factories)
      {
        var reloaded := shardContexts[order[i]].ReloadRewriter(rewriterId, store);
        if reloaded.Fail? {
          return Fail(JavaException(OpenSearchException, "Could not reload rewriter " + rewriterId)), i;
        }
      }
      return Pass, |order|;
    }

    /** `clearRewriter(rewriterId)`: the id is invalidated in every cache. */
    method ClearRewriter(rewriterId: string)
      requires Valid()
      modifies shardContexts.Values
      ensures forall s :: s in shardContexts ==>
        shardContexts[s].factories == old(shardContexts[s].factories) - {rewriterId}
    {
      for i := 0 to |order|
        invariant forall j :: 0 <= j < i ==>
          shardContexts[order[j]].factories == old(shardContexts[order[j]].factories) - {rewriterId}
        invariant forall j :: i <= j < |order| ==>
          shardContexts[order[j]].factories == old(shardContexts[order[j]].factories)
      {
        assert order[i] in shardContexts;
        shardContexts[order[i]].ClearRewriter(rewriterId);
      }
      forall s | s in shardContexts
        ensures shardContexts[s].factories == old(shardContexts[s].factories) - {rewriterId}
      {
        var j :| 0 <= j < |order| && order[j] == s;
      }
    }

    /** `clearRewriters()`: every cache is emptied. */
    method ClearRewriters()
      requires Valid()
      modifies shardContexts.Values
      ensures forall s :: s in shardContexts ==> shardContexts[s].factories == map[]
    {
      for i := 0 to |order|
        invariant forall j :: 0 <= j < i ==> shardContexts[order[j]].factories == map[]
      {
        assert order[i] in shardContexts;
        shardContexts[order[i]].ClearRewriters();
      }
      forall s | s in shardContexts ensures shardContexts[s].factories == map[] {
        var j :| 0 <= j < |order| && order[j] == s;
      }
    }

    /** `afterIndexShardClosed(shardId)`, and `shardRoutingChanged` for the
        shard of the routed index shard: that shard's cache is dropped, the
        others stay registered as they are, and the next query on the shard
        gets a new, empty cache. */
    method RemoveShard(shardId: ShardId)
      requires Valid()
      modifies this
      ensures Valid()
      ensures shardContexts == old(shardContexts) - {shardId}
      ensures order == Without(old(order), shardId)
    {
      shardContexts := shardContexts - {shardId};
      order := Without(order, shardId);
    }
  }
}
