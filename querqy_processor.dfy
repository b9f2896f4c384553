/** `QuerqyProcessor.parseQuery`. It decides the rewrite chain of a query
    and whether its info logging is switched on, lets the query parser run
    with that chain, folds the parser's queries into one Lucene query, and
    writes the rewriters' log messages at the end of the request. */
module QuerqyProcessors {
  import opened Wrappers
  import opened Exceptions
  import opened QueryComposition
  import opened InfoLoggingSpecs
  import opened LogMessages
  import opened Log4jSinks
  import opened SingleSinkInfoLoggings
  import opened ShardCache
  import opened ShardCaches

  /** One run of the query parsing controller (`controller.process()`):
      the `log(message, rewriterId)` calls the chain's rewriters make on
      the request's info logging, in order, and then either the Lucene
      queries it produces or the `SyntaxException` it throws. */
  datatype ParserRun = ParserRun(queries: Result<LuceneQueries, JavaException>, calls: seq<(LogValue, string)>)

  /** The query parsing controller with its request adapter, which is
      outside this model: what it does for a rewrite chain. */
  type Controller = seq<RewriterFactory> -> ParserRun

  /** `EMPTY_REWRITE_CHAIN` with no rewriter enabled for logging. */
  const NO_REWRITERS := RewriteChainAndLogging([], {})

  /** The spec asks for logging and was not logged yet in this request. */
  predicate LoggingRequested(spec: Option<SpecState>) {
    spec.Some? && spec.value.payloadType != NONE && !spec.value.IsLogged()
  }

  /** The chain a parse uses and the rewriters it enables for logging, given
      the query's rewriter names, what the shard's cache returns for them
      (`fromShard`, only asked when there are names) and the spec. */
  function Decided(rewriters: Option<seq<string>>, fromShard: Result<RewriteChainAndLogging, JavaException>,
                   spec: Option<SpecState>): (r: Result<RewriteChainAndLogging, JavaException>)
    ensures NullOrEmpty(rewriters) ==> r == Success(NO_REWRITERS)
    ensures !NullOrEmpty(rewriters) ==> (r.Failure? <==> fromShard.Failure?) && (r.Failure? ==> r == fromShard)
    ensures !NullOrEmpty(rewriters) && r.Success? ==>
      && r.value.chain == fromShard.value.chain
      && r.value.loggingEnabledRewriters
           == (if LoggingRequested(spec) then fromShard.value.loggingEnabledRewriters else {})
  {
    if NullOrEmpty(rewriters) then Success(NO_REWRITERS)
    else
      var c :- fromShard;
      Success(RewriteChainAndLogging(c.chain, if LoggingRequested(spec) then c.loggingEnabledRewriters else {}))
  }

  /** The spec after the decision: marked as logged exactly when the
      decision asked it whether to log and it said yes. */
  function SpecAfter(rewriters: Option<seq<string>>, fromShard: Result<RewriteChainAndLogging, JavaException>,
                     spec: Option<SpecState>): Option<SpecState>
  {
    if !NullOrEmpty(rewriters) && fromShard.Success? && LoggingRequested(spec)
    then Some(spec.value.(logged := Some(true)))
    else spec
  }

  /** What `getRewriteChain` of the shard's cache `cache` returns for the
      names. */
  function ChainFor(cache: map<string, Entry>, rewriterIds: seq<string>, store: Store, shardId: ShardId, env: Environment)
    : Result<RewriteChainAndLogging, JavaException>
  {
    var r := Resolve(cache, rewriterIds, store, shardId, env);
    if r.error.Some? then Failure(r.error.value) else Success(RewriteChainAndLogging(r.chain, r.logging))
  }

  /** The info logging of the request: `null` when no rewriter is enabled. */
  function InfoLoggingFor(enabled: set<string>): (r: Option<SingleSinkInfoLogging>)
    ensures r.Some? <==> enabled != {}
    ensures r.Some? ==> forall rewriterId :: r.value.IsLoggingEnabledForRewriter(rewriterId) <==> rewriterId in enabled
  {
    if enabled == {} then None else Some(New(Some(enabled)))
  }

  /** The messages in the request context after the rewriters' log calls,
      starting from `m`: a call reaches the sink only when the request has
      an info logging that enables its rewriter. */
  function Collect(m: Option<Messages>, logging: Option<SingleSinkInfoLogging>, calls: seq<(LogValue, string)>): Option<Messages> {
    if calls == [] then m
    else
      var init, last := calls[..|calls| - 1], calls[|calls| - 1];
      var before := Collect(m, logging, init);
      if logging.Some? && logging.value.IsLoggingEnabledForRewriter(last.1)
      then Some(Logged(Collected(before), last.1, last.0))
      else before
  }

  /** Some call of the list was made by an enabled rewriter. */
  predicate SomeEnabledCall(logging: SingleSinkInfoLogging, calls: seq<(LogValue, string)>) {
    exists i :: 0 <= i < |calls| && logging.IsLoggingEnabledForRewriter(calls[i].1)
  }

  /** A request without info logging collects nothing. A request with one
      holds messages exactly when an enabled rewriter logged, and then they
      are the ones the info logging forwarded, which are never empty. */
  lemma {:induction false} CollectedMessages(logging: Option<SingleSinkInfoLogging>, calls: seq<(LogValue, string)>)
    ensures logging.None? ==> Collect(None, logging, calls) == None
    ensures logging.Some? ==> (Collect(None, logging, calls).Some? <==> SomeEnabledCall(logging.value, calls))
    ensures logging.Some? && Collect(None, logging, calls).Some? ==>
      var m := Collect(None, logging, calls).value;
      m == ForwardedAll(logging.value, [], calls) && m != []
    ensures logging.Some? && Collect(None, logging, calls).None? ==> ForwardedAll(logging.value, [], calls) == []
  {
    if calls != [] {
      var init, last := calls[..|calls| - 1], calls[|calls| - 1];
      CollectedMessages(logging, init);
      if logging.Some? {
        var l := logging.value;
        if l.IsLoggingEnabledForRewriter(last.1) {
          var m := ForwardedAll(l, [], init);
          OnlyEnabledRewritersLogged(l, init);
          LoggedContents(m, last.1, last.0);
          assert last.1 in AsMap(Logged(m, last.1, last.0));
          assert SomeEnabledCall(l, calls) by {
            assert l.IsLoggingEnabledForRewriter(calls[|calls| - 1].1);
          }
        } else if SomeEnabledCall(l, calls) {
          var i :| 0 <= i < |calls| && l.IsLoggingEnabledForRewriter(calls[i].1);
          assert i < |init| && init[i] == calls[i];
        } else {
          assert !SomeEnabledCall(l, init) by {
            forall i | 0 <= i < |init| ensures !l.IsLoggingEnabledForRewriter(init[i].1) {
              assert init[i] == calls[i];
            }
          }
        }
      }
    }
  }

  /** The outcome of a parse: the query or the exception thrown, and the
      event the sink writes, if any. */
  datatype Parse = Parse(result: Result<Query, JavaException>, event: Option<LogEvent>)

  /** The event `endOfRequest` writes for a request that uses `c`, whose
      adapter provides `spec`. */
  function RequestEvent(c: RewriteChainAndLogging, spec: Option<SpecState>, controller: Controller): Option<LogEvent> {
    var logging := InfoLoggingFor(c.loggingEnabledRewriters);
    if logging.None? then None
    else SingleSinkInfoLoggings.EndOfRequest(logging.value, Collect(None, logging, controller(c.chain).calls), SpecProvider(spec))
  }

  /** `parseQuery` as written: the short-circuit returns the lone clause's
      query before `endOfRequest` is reached. */
  function ParsedAsWritten(decided: Result<RewriteChainAndLogging, JavaException>, spec: Option<SpecState>,
                           controller: Controller): Parse
  {
    match decided
    case Failure(e) => Parse(Failure(e), None)
    case Success(c) =>
      match controller(c.chain).queries
      case Failure(e) => Parse(Failure(e), None)
      case Success(queries) =>
        Parse(Success(Composed(queries)), if ShortCircuits(queries) then None else RequestEvent(c, spec, controller))
  }

  /** `parseQuery` with `endOfRequest` on both paths. */
  function Parsed(decided: Result<RewriteChainAndLogging, JavaException>, spec: Option<SpecState>,
                  controller: Controller): Parse
  {
    match decided
    case Failure(e) => Parse(Failure(e), None)
    case Success(c) =>
      match controller(c.chain).queries
      case Failure(e) => Parse(Failure(e), None)
      case Success(queries) => Parse(Success(Composed(queries)), RequestEvent(c, spec, controller))
  }

  /** As written, a query that is short-circuited never writes its log
      messages, however many were collected. */
  lemma ShortCircuitDropsMessages(decided: Result<RewriteChainAndLogging, JavaException>, spec: Option<SpecState>,
                                  controller: Controller)
    requires decided.Success? && controller(decided.value.chain).queries.Success?
    requires ShortCircuits(controller(decided.value.chain).queries.value)
    ensures ParsedAsWritten(decided, spec, controller).event == None
    ensures ParsedAsWritten(decided, spec, controller).result == Parsed(decided, spec, controller).result
  {
  }

  /** A single-term query under a spec asking for rewriter ids, with one
      enabled rewriter that logs one message: as written nothing is
      written, while the message was collected and is written when
      `endOfRequest` is called on both paths. */
  lemma ShortCircuitCounterexample()
    ensures var spec := Some(SpecState(Some("q1"), REWRITER_ID, None));
      var fromShard := Success(RewriteChainAndLogging([], {"r1"}));
      var message := LString("prefixed");
      var controller: Controller := chain =>
        ParserRun(Success(LuceneQueries(BooleanQuery([Clause(Should, TermQuery("f1", "a"))], 0), None, None)), [(message, "r1")]);
      var decided := Decided(Some(["r1"]), fromShard, spec);
      var after := SpecAfter(Some(["r1"]), fromShard, spec);
      && ShortCircuits(controller([]).queries.value)
      && ParsedAsWritten(decided, after, controller).event == None
      && Parsed(decided, after, controller).event
           == Some(LogEvent(MARKER_QUERQY_REWRITER_ID, RewriterIdLogMessage(Some("q1"), [("r1", [message])])))
  {
    var message := LString("prefixed");
    assert Logged([], "r1", message) == [("r1", [message])];
  }

  /** Neither form changes the query: they differ only in the event of a
      short-circuited query. */
  lemma FormsAgreeOnQuery(decided: Result<RewriteChainAndLogging, JavaException>, spec: Option<SpecState>,
                          controller: Controller)
    ensures ParsedAsWritten(decided, spec, controller).result == Parsed(decided, spec, controller).result
    ensures (decided.Success? && controller(decided.value.chain).queries.Success?
             && !ShortCircuits(controller(decided.value.chain).queries.value)) ==>
      ParsedAsWritten(decided, spec, controller) == Parsed(decided, spec, controller)
  {
  }

  /** An event is written exactly when the chain is decided, the parser
      does not throw, the spec asks for a payload and an enabled rewriter
      logged; it holds the messages sorted by rewriter id, only of enabled rewriters, each with exactly
      the messages that rewriter logged, in order. */
  lemma {:induction false} ParsedEvent(decided: Result<RewriteChainAndLogging, JavaException>, spec: Option<SpecState>,
                                       controller: Controller)
    ensures var event := Parsed(decided, spec, controller).event;
      event.Some? <==>
        && decided.Success?
        && controller(decided.value.chain).queries.Success?
        && decided.value.loggingEnabledRewriters != {}
        && spec.Some? && spec.value.payloadType != NONE
        && SomeEnabledCall(New(Some(decided.value.loggingEnabledRewriters)), controller(decided.value.chain).calls)
    ensures var event := Parsed(decided, spec, controller).event;
      event.Some? ==>
        var enabled, calls := decided.value.loggingEnabledRewriters, controller(decided.value.chain).calls;
        var m := event.value.message.messages;
        && event.value.message.id == spec.value.id
        && (event.value.marker == MARKER_QUERQY_REWRITER_ID <==> spec.value.payloadType == REWRITER_ID)
        && SortedKeys(m)
        && (forall k :: k in AsMap(m) ==> k in enabled)
        && (forall k :: k in enabled ==> Prior(m, k) == LoggedBy(calls, k))
  {
    if decided.Success? && decided.value.loggingEnabledRewriters != {} {
      var enabled, calls := decided.value.loggingEnabledRewriters, controller(decided.value.chain).calls;
      var logging := New(Some(enabled));
      CollectedMessages(Some(logging), calls);
      OnlyEnabledRewritersLogged(logging, calls);
    }
  }

  /** A query without rewriters uses the empty chain and writes nothing. */
  lemma NoRewritersNoEvent(rewriters: Option<seq<string>>, fromShard: Result<RewriteChainAndLogging, JavaException>,
                           spec: Option<SpecState>, controller: Controller)
    requires NullOrEmpty(rewriters)
    ensures var parse := Parsed(Decided(rewriters, fromShard, spec), SpecAfter(rewriters, fromShard, spec), controller);
      var queries := controller([]).queries;
      && parse.event == None
      && parse.result == if queries.Success? then Success(Composed(queries.value)) else Failure(queries.error)
    ensures SpecAfter(rewriters, fromShard, spec) == spec
  {
  }

  /** When the parser throws, the exception propagates and no event is
      written, though the spec was already marked as logged when the
      decision switched logging on; so a later parse with the same spec
      writes nothing either. */
  lemma SyntaxErrorWritesNothing(rewriters: Option<seq<string>>, fromShard: Result<RewriteChainAndLogging, JavaException>,
                                 spec: Option<SpecState>, controller: Controller)
    requires Decided(rewriters, fromShard, spec).Success?
    requires controller(Decided(rewriters, fromShard, spec).value.chain).queries.Failure?
    ensures var decided := Decided(rewriters, fromShard, spec);
      Parsed(decided, SpecAfter(rewriters, fromShard, spec), controller)
        == Parse(Failure(controller(decided.value.chain).queries.error), None)
    ensures !NullOrEmpty(rewriters) && LoggingRequested(spec) ==>
      var spec1 := SpecAfter(rewriters, fromShard, spec);
      spec1.Some? && spec1.value.IsLogged() && !LoggingRequested(spec1)
  {
  }

  /** Once a parse has written an event, a second parse of a query with the
      same spec writes none, whatever its rewriters and their messages. */
  lemma SecondParseLogsNothing(rewriters: Option<seq<string>>, fromShard: Result<RewriteChainAndLogging, JavaException>,
                               rewriters2: Option<seq<string>>, fromShard2: Result<RewriteChainAndLogging, JavaException>,
                               spec: Option<SpecState>, controller: Controller, controller2: Controller)
    requires Parsed(Decided(rewriters, fromShard, spec), SpecAfter(rewriters, fromShard, spec), controller).event.Some?
    ensures var spec1 := SpecAfter(rewriters, fromShard, spec);
      && spec1.Some? && spec1.value.IsLogged()
      && Parsed(Decided(rewriters2, fromShard2, spec1), SpecAfter(rewriters2, fromShard2, spec1), controller2).event == None
  {
  }

  /** `QuerqyProcessor`: the registry of shard caches it asks for rewrite
      chains; its sink is `Log4jSink`. */
  class QuerqyProcessor {
    const rewriterShardContexts: RewriterShardContexts

    constructor (rewriterShardContexts: RewriterShardContexts)
      ensures this.rewriterShardContexts == rewriterShardContexts
    {
      this.rewriterShardContexts := rewriterShardContexts;
    }

    /** The rewrite chain and logging decision of `parseQuery`: no names
        give the empty chain; otherwise the shard's cache is asked for the
        chain (an exception propagates), and logging is switched on, and
        the spec marked as logged, when the spec asks for it. */
    method Decide(rewriters: Option<seq<string>>, spec: InfoLoggingSpec?, shardId: ShardId, store: Store)
      returns (decided: Result<RewriteChainAndLogging, JavaException>)
      requires rewriterShardContexts.Valid()
      modifies rewriterShardContexts, rewriterShardContexts.shardContexts.Values, spec
      ensures rewriterShardContexts.Valid()
      ensures NullOrEmpty(rewriters) ==> rewriterShardContexts.shardContexts == old(rewriterShardContexts.shardContexts)
      ensures var cache := if shardId in old(rewriterShardContexts.shardContexts)
                           then old(rewriterShardContexts.shardContexts[shardId].factories) else map[];
        var fromShard := if NullOrEmpty(rewriters) then Success(NO_REWRITERS)
                         else ChainFor(cache, rewriters.value, store, shardId, rewriterShardContexts.env);
        var specBefore := if spec == null then None else Some(old(spec.State()));
        && (if spec == null then None else Some(spec.State())) == SpecAfter(rewriters, fromShard, specBefore)
        && decided == Decided(rewriters, fromShard, specBefore)
    {
      if rewriters.None? || rewriters.value == [] {
        return Success(NO_REWRITERS);
      }
      var fromShard := rewriterShardContexts.GetRewriteChain(rewriters.value, shardId, store);
      if fromShard.Failure? {
        return Failure(fromShard.error);
      }
      var enabled: set<string> := {};
      if spec != null && spec.payloadType != NONE && !spec.State().IsLogged() {
        spec.SetLogged(true);
        enabled := fromShard.value.loggingEnabledRewriters;
      }
      return Success(RewriteChainAndLogging(fromShard.value.chain, enabled));
    }

    /** `parseQuery(queryBuilder, context)` for a query with the rewriter
        names `rewriters` and the spec `spec` on shard `shardId`, with
        `endOfRequest` called on both paths. */
    method ParseQuery(rewriters: Option<seq<string>>, spec: InfoLoggingSpec?, shardId: ShardId, store: Store,
                      controller: Controller)
      returns (result: Result<Query, JavaException>, event: Option<LogEvent>)
      requires rewriterShardContexts.Valid()
      modifies rewriterShardContexts, rewriterShardContexts.shardContexts.Values, spec
      ensures rewriterShardContexts.Valid()
      ensures NullOrEmpty(rewriters) ==> rewriterShardContexts.shardContexts == old(rewriterShardContexts.shardContexts)
      ensures var cache := if shardId in old(rewriterShardContexts.shardContexts)
                           then old(rewriterShardContexts.shardContexts[shardId].factories) else map[];
        var fromShard := if NullOrEmpty(rewriters) then Success(NO_REWRITERS)
                         else ChainFor(cache, rewriters.value, store, shardId, rewriterShardContexts.env);
        var specBefore := if spec == null then None else Some(old(spec.State()));
        var specNow := if spec == null then None else Some(spec.State());
        && specNow == SpecAfter(rewriters, fromShard, specBefore)
        && Parse(result, event) == Parsed(Decided(rewriters, fromShard, specBefore), specNow, controller)
    {
      var decided := Decide(rewriters, spec, shardId, store);
      if decided.Failure? {
        return Failure(decided.error), None;
      }
      var specNow := if spec == null then None else Some(spec.State());
      result, event := Process(decided.value, specNow, controller);
    }
  }

  /** The rest of `parseQuery` once the chain is decided: the request's
      info logging, the parser's run with its log calls, then either the
      parser's exception, which skips everything after it, or the
      composition and `endOfRequest` whether or not the query was
      short-circuited. */
  method Process(decided: RewriteChainAndLogging, spec: Option<SpecState>, controller: Controller)
    returns (result: Result<Query, JavaException>, event: Option<LogEvent>)
    ensures Parse(result, event) == Parsed(Success(decided), spec, controller)
  {
    var infoLogging := InfoLoggingFor(decided.loggingEnabledRewriters);
    var adapter := new RequestAdapter(SpecProvider(spec));
    var run := controller(decided.chain);
    ForwardLogCalls(infoLogging, run.calls, adapter);
    if run.queries.Failure? {
      return Failure(run.queries.error), None;
    }
    var query := ComposeQuery(run.queries.value);
    result := Success(query);
    event := None;
    if infoLogging.Some? {
      event := SingleSinkInfoLoggings.EndOfRequest(infoLogging.value, adapter.messages, adapter.specSource);
    }
  }

  /** The rewriters' `log` calls during query parsing, each handed to the
      request's info logging if there is one. */
  method ForwardLogCalls(infoLogging: Option<SingleSinkInfoLogging>, calls: seq<(LogValue, string)>, adapter: RequestAdapter)
    requires adapter.Valid()
    modifies adapter
    ensures adapter.Valid()
    ensures adapter.messages == Collect(old(adapter.messages), infoLogging, calls)
  {
    for i := 0 to |calls|
      invariant adapter.Valid()
      invariant adapter.messages == Collect(old(adapter.messages), infoLogging, calls[..i])
    {
      assert calls[..i + 1][..i] == calls[..i];
      if infoLogging.Some? {
        SingleSinkInfoLoggings.Log(infoLogging.value, calls[i].0, calls[i].1, adapter);
      }
    }
    assert calls[..|calls|] == calls;
  }
}
