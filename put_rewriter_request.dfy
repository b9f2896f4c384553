/** `PutRewriterRequest.validate`: the checks a rewriter definition must
    pass before it is stored. The result is `Success(None)` for a valid
    definition (`validate` returns `null`), `Success(Some(errors))` for the
    errors of the `ActionRequestValidationException` it returns, and
    `Failure(e)` for an exception it throws. */
module PutRewriterRequest {
  import opened Wrappers
  import opened Exceptions
  import opened Values
  import opened OpenSearchRewriterFactory

  const SINK_LOG4J := "log4j"

  /** The check of the `sinks` value of `info_logging`: `None` when it
      passes, otherwise the validation error. A single-element collection
      whose element is `null` throws on `equals`. */
  function CheckSinks(sinks: Value): (r: Result<Option<string>, JavaException>)
    ensures sinks.Str? ==> r == Success(if sinks.s == SINK_LOG4J then None
                                        else Some("Can only log to sink named 'log4j' but not to " + sinks.s))
    ensures sinks.List? ==>
      && (r == Success(None) <==> sinks.items == [] || sinks.items == [Str(SINK_LOG4J)])
      && (r.Failure? <==> sinks.items == [Null])
      && (r.Success? && r.value.Some? ==> r.value.value == "Can only log to sink named 'log4j'")
    ensures !(sinks.Str? || sinks.List?) ==> r == Success(None)
  {
    match sinks
    case Str(s) =>
      if s != SINK_LOG4J then Success(Some("Can only log to sink named 'log4j' but not to " + s))
      else Success(None)
    case List(items) =>
      if |items| > 0 then
        if |items| > 1 then Success(Some("Can only log to sink named 'log4j'"))
        else if items[0].Null? then Failure(JavaException(NullPointerException, ""))
        else if items[0] != Str(SINK_LOG4J) then Success(Some("Can only log to sink named 'log4j'"))
        else Success(None)
      else Success(None)
    case _ => Success(None)
  }

  /** The `info_logging` part of `validate`: the cast of `info_logging` to
      a map, then the check of its `sinks`, if any. */
  function CheckInfoLogging(content: JavaMap): Result<Option<string>, JavaException> {
    var loggingConfig :- CastMap(Get(content, "info_logging"));
    if loggingConfig.None? then Success(None)
    else CheckSinks(Get(loggingConfig.value, "sinks"))
  }

  /** The configuration part of `validate`: the factory class validates
      `config`, an empty map when absent; a failed cast or an exception of
      the factory is rethrown wrapped in a `RuntimeException`. */
  function ValidateConfig(factoryClass: RewriterClass, content: JavaMap): Result<Option<seq<string>>, JavaException> {
    match CastMap(GetOrDefault(content, "config", Object(map[])))
    case Failure(e) => Failure(WrappedInRuntime(e))
    case Success(config) =>
      match factoryClass.validateConfiguration(config)
      case Failure(e) => Failure(WrappedInRuntime(e))
      case Success(errors) => Success(errors)
  }

  /** `validate`. */
  function Validate(rewriterId: string, content: JavaMap, registry: Registry): (r: Result<Option<seq<string>>, JavaException>)
    // An unresolvable class is reported before anything else is looked at.
    ensures LoadInstance(rewriterId, content, "class", registry).Failure? ==>
      r == Success(Some(["Invalid definition of rewriter 'class': "
                         + LoadInstance(rewriterId, content, "class", registry).error.message]))
    ensures LoadInstance(rewriterId, content, "class", registry).Success? ==>
      match CheckInfoLogging(content)
      case Failure(e) => r == Failure(e)
      case Success(Some(error)) => r == Success(Some([error]))
      case Success(None) =>
        var factoryClass := registry[LoadInstance(rewriterId, content, "class", registry).value.className];
        && (ValidateConfig(factoryClass, content).Failure? ==> r == Failure(ValidateConfig(factoryClass, content).error))
        // A non-empty error list is reported whole; `null` or an empty list means valid.
        && (ValidateConfig(factoryClass, content).Success? ==>
              var errors := ValidateConfig(factoryClass, content).value;
              r == if errors.Some? && errors.value != [] then Success(errors) else Success(None))
  {
    match LoadInstance(rewriterId, content, "class", registry)
    case Failure(e) => Success(Some(["Invalid definition of rewriter 'class': " + e.message]))
    case Success(factory) =>
      var sinkError :- CheckInfoLogging(content);
      if sinkError.Some? then Success(Some([sinkError.value]))
      else
        var errors :- ValidateConfig(registry[factory.className], content);
        if errors.Some? && errors.value != [] then Success(errors) else Success(None)
  }

  /** A missing `info_logging`, a missing `sinks` and a `sinks` value that
      is neither a string nor a collection raise no sink error. */
  lemma NoSinkErrorWithoutSinks(content: JavaMap)
    requires Get(content, "info_logging").Null?
      || (Get(content, "info_logging").Object?
          && !(Get(Get(content, "info_logging").fields, "sinks").Str?
               || Get(Get(content, "info_logging").fields, "sinks").List?))
    ensures CheckInfoLogging(content) == Success(None)
  {
  }

  /** The sinks that pass: exactly `"log4j"`, an empty collection, and the
      collection holding just `"log4j"`; the values that are neither strings
      nor collections are ignored. */
  lemma AcceptedSinks(sinks: Value)
    requires sinks.Str? || sinks.List?
    ensures CheckSinks(sinks) == Success(None)
      <==> sinks == Str(SINK_LOG4J) || sinks == List([]) || sinks == List([Str(SINK_LOG4J)])
  {
  }

  /** A definition without `config` is validated as an empty
      configuration. */
  lemma MissingConfigValidatedAsEmpty(factoryClass: RewriterClass, content: JavaMap)
    requires "config" !in content
    ensures ValidateConfig(factoryClass, content)
      == match factoryClass.validateConfiguration(Some(map[]))
         case Failure(e) => Failure(WrappedInRuntime(e))
         case Success(errors) => Success(errors)
  {
  }
}
