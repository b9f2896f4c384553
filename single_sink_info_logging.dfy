/** `SingleSinkInfoLogging`: the info logging of a request, which passes
    the messages of the rewriters whose logging is enabled on to one sink,
    `Log4jSink`. */
module SingleSinkInfoLoggings {
  import opened Wrappers
  import opened LogMessages
  import opened Log4jSinks

  /** The enabled rewriter ids, fixed when the object is created. */
  datatype SingleSinkInfoLogging = SingleSinkInfoLogging(enabledRewriterIds: set<string>) {
    /** `isLoggingEnabledForRewriter`. */
    predicate IsLoggingEnabledForRewriter(rewriterId: string) {
      rewriterId in enabledRewriterIds
    }
  }

  /** The constructor: a `null` set enables no rewriter. */
  function New(enabledRewriterIds: Option<set<string>>): (r: SingleSinkInfoLogging)
    ensures forall rewriterId ::
              r.IsLoggingEnabledForRewriter(rewriterId) <==> enabledRewriterIds.Some? && rewriterId in enabledRewriterIds.value
  {
    SingleSinkInfoLogging(if enabledRewriterIds.Some? then enabledRewriterIds.value else {})
  }

  /** The messages after `log(message, rewriterId, adapter)`. */
  function Forwarded(logging: SingleSinkInfoLogging, m: Messages, message: LogValue, rewriterId: string): Messages {
    if logging.IsLoggingEnabledForRewriter(rewriterId) then Logged(m, rewriterId, message) else m
  }

  /** `log(message, rewriterId, adapter)`: handed on to the sink when the
      rewriter is enabled, dropped otherwise. */
  method Log(logging: SingleSinkInfoLogging, message: LogValue, rewriterId: string, adapter: RequestAdapter)
    requires adapter.Valid()
    modifies adapter
    ensures adapter.Valid()
    ensures logging.IsLoggingEnabledForRewriter(rewriterId) ==>
      adapter.messages == Some(Logged(Collected(old(adapter.messages)), rewriterId, message))
    ensures !logging.IsLoggingEnabledForRewriter(rewriterId) ==> adapter.messages == old(adapter.messages)
  {
    if rewriterId in logging.enabledRewriterIds {
      Log4jSinks.Log(message, rewriterId, adapter);
    }
  }

  /** `endOfRequest(adapter)`: always handed on to the sink. What the sink
      then writes is stated by Log4jSinks.MissingSpecLogsNothing and
      Log4jSinks.LoggedRequestWritesIds. */
  function EndOfRequest(logging: SingleSinkInfoLogging, messages: Option<Messages>, source: SpecSource): (event: Option<LogEvent>)
    ensures event == Log4jSinks.EndOfRequest(messages, source)
  {
    Log4jSinks.EndOfRequest(messages, source)
  }

  /** The messages of a request after a series of `log` calls. */
  function ForwardedAll(logging: SingleSinkInfoLogging, m: Messages, calls: seq<(LogValue, string)>): Messages {
    if calls == [] then m
    else
      var last := calls[|calls| - 1];
      Forwarded(logging, ForwardedAll(logging, m, calls[..|calls| - 1]), last.0, last.1)
  }

  /** However many messages are logged, the request's messages stay sorted
      and name only enabled rewriters, each with exactly the messages it
      logged, in order. */
  lemma {:induction false} OnlyEnabledRewritersLogged(logging: SingleSinkInfoLogging, calls: seq<(LogValue, string)>)
    ensures SortedKeys(ForwardedAll(logging, [], calls))
    ensures forall k :: k in AsMap(ForwardedAll(logging, [], calls)) ==> logging.IsLoggingEnabledForRewriter(k)
    ensures forall k :: logging.IsLoggingEnabledForRewriter(k) ==>
      Prior(ForwardedAll(logging, [], calls), k) == LoggedBy(calls, k)
  {
    if calls != [] {
      var init, last := calls[..|calls| - 1], calls[|calls| - 1];
      OnlyEnabledRewritersLogged(logging, init);
      var m := ForwardedAll(logging, [], init);
      if logging.IsLoggingEnabledForRewriter(last.1) {
        LoggedSorted(m, last.1, last.0);
        LoggedContents(m, last.1, last.0);
      }
    }
  }

  /** The messages the calls log for `rewriterId`, in order. */
  function LoggedBy(calls: seq<(LogValue, string)>, rewriterId: string): seq<LogValue> {
    if calls == [] then []
    else
      var last := calls[|calls| - 1];
      LoggedBy(calls[..|calls| - 1], rewriterId) + (if last.1 == rewriterId then [last.0] else [])
  }
}
