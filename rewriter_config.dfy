/** `RewriterConfigMapping`: how a stored rewriter definition (the
    `_source` of a document in the rewriter index) is laid out, in the
    current version 3 and in the layout before it, and how a put request is
    turned into a stored definition. */
module RewriterConfigMapping {
  import opened Wrappers
  import opened JavaLang
  import opened Exceptions
  import opened Values

  const CURRENT_MAPPING_VERSION := 3
  const PROP_VERSION := "version"
  const PROP_TYPE := "type"
  const TYPE_REWRITER := "rewriter"

  /** The JSON serialiser and parser of the search engine, which are outside
      this model: `serialize` is `mapToJsonString`, `parse` is
      `parser.map()` and yields `None` where it throws. */
  datatype JsonCodec = JsonCodec(serialize: JavaMap -> string, parse: string -> Option<JavaMap>)

  /** The codec reads back what it wrote for `config`: the written text is
      not blank, and parsing its trimmed form gives `config` again. */
  predicate RoundTrips(codec: JsonCodec, config: JavaMap) {
    var text := Trim(codec.serialize(config));
    text != [] && codec.parse(text) == Some(config)
  }

  /** The two record layouts, `CURRENT` and `PRE3_MAPPING`. */
  datatype Mapping = Current | Pre3 {
    function ConfigStringProperty(): string {
      match this
      case Current => "config_v_003"
      case Pre3 => "config"
    }

    function RewriterClassNameProperty(): string {
      "class"
    }

    function InfoLoggingProperty(): string {
      "info_logging"
    }

    /** `getRewriterClassName`: the class name, `null` if absent. */
    function RewriterClassName(source: JavaMap): Result<Option<string>, JavaException> {
      CastString(Get(source, RewriterClassNameProperty()))
    }

    /** `getInfoLoggingConfig`: the `info_logging` object, `null` if absent. */
    function InfoLoggingConfig(source: JavaMap): Result<Option<JavaMap>, JavaException> {
      CastMap(Get(source, InfoLoggingProperty()))
    }
  }

  /** The two layouts read class name and logging settings alike and differ
      only in the property that holds the configuration. */
  lemma MappingsDifferOnlyInConfigProperty(source: JavaMap)
    ensures Current.RewriterClassName(source) == Pre3.RewriterClassName(source)
    ensures Current.InfoLoggingConfig(source) == Pre3.InfoLoggingConfig(source)
    ensures Current.ConfigStringProperty() != Pre3.ConfigStringProperty()
  {
  }

  /** `getMapping`: the layout a record's `version` selects. */
  function GetMapping(source: JavaMap): (r: Result<Mapping, JavaException>)
    ensures Get(source, PROP_VERSION).Null? <==> r == Success(Pre3)
    ensures Get(source, PROP_VERSION) == Int(CURRENT_MAPPING_VERSION) <==> r == Success(Current)
    ensures Get(source, PROP_VERSION).Int? && Get(source, PROP_VERSION).i != CURRENT_MAPPING_VERSION ==>
      r == Failure(IllegalArgument("Unknown rewriter config version: " + IntToString(Get(source, PROP_VERSION).i)))
  {
    var version :- CastInt(Get(source, PROP_VERSION));
    match version
    case None => Success(Pre3)
    case Some(v) =>
      if v == CURRENT_MAPPING_VERSION then Success(Current)
      else Failure(IllegalArgument("Unknown rewriter config version: " + IntToString(v)))
  }

  /** `getConfig`: the configuration map parsed from the configuration
      string, or an empty map when that string is absent or blank. */
  function GetConfig(mapping: Mapping, rewriterId: string, source: JavaMap, codec: JsonCodec): (r: Result<JavaMap, JavaException>)
    ensures Get(source, mapping.ConfigStringProperty()).Null? ==> r == Success(map[])
    ensures Get(source, mapping.ConfigStringProperty()).Str? && IsBlank(Get(source, mapping.ConfigStringProperty()).s) ==>
      r == Success(map[])
    ensures Get(source, mapping.ConfigStringProperty()).Str? && !IsBlank(Get(source, mapping.ConfigStringProperty()).s) ==>
      r == match codec.parse(Trim(Get(source, mapping.ConfigStringProperty()).s))
           case Some(config) => Success(config)
           case None => Failure(JavaException(ParsingException, "Could not load 'config' of rewriter " + rewriterId))
    ensures !Get(source, mapping.ConfigStringProperty()).Null? && !Get(source, mapping.ConfigStringProperty()).Str? ==>
      r == Failure(ClassCast("java.lang.String"))
  {
    var configStr :- CastString(Get(source, mapping.ConfigStringProperty()));
    if configStr.None? || Trim(configStr.value) == [] then Success(map[])
    else
      match codec.parse(Trim(configStr.value))
      case Some(config) => Success(config)
      case None => Failure(JavaException(ParsingException, "Could not load 'config' of rewriter " + rewriterId))
  }

  /** `toLuceneSource`: the stored form of a put request's content, written
      in the current layout. `class` is copied as it is (even when absent, as
      `null`); `info_logging` and `config` only when present, the latter
      serialised. */
  method ToLuceneSource(putRequestContent: JavaMap, codec: JsonCodec) returns (result: Result<JavaMap, JavaException>)
    ensures result.Success? <==>
      CastMap(Get(putRequestContent, "info_logging")).Success? && CastMap(Get(putRequestContent, "config")).Success?
    ensures result.Failure? ==> result.error == ClassCast("java.util.Map")
    ensures result.Success? ==>
      var source := result.value;
      && source.Keys == {PROP_TYPE, PROP_VERSION, "class"}
           + (if Get(putRequestContent, "info_logging").Null? then {} else {"info_logging"})
           + (if Get(putRequestContent, "config").Null? then {} else {"config_v_003"})
      && source[PROP_TYPE] == Str(TYPE_REWRITER)
      && source[PROP_VERSION] == Int(CURRENT_MAPPING_VERSION)
      && source["class"] == Get(putRequestContent, "class")
      && ("info_logging" in source ==> source["info_logging"] == putRequestContent["info_logging"])
      && ("config_v_003" in source ==> source["config_v_003"] == Str(codec.serialize(putRequestContent["config"].fields)))
    // Reading the stored form back: it is in the current layout, which finds
    // the class and the logging settings where they were written, and the
    // configuration whenever the codec reads back what it wrote.
    ensures result.Success? ==>
      var source := result.value;
      && GetMapping(source) == Success(Current)
      && Current.RewriterClassName(source) == CastString(Get(putRequestContent, "class"))
      && Current.InfoLoggingConfig(source) == CastMap(Get(putRequestContent, "info_logging"))
      && (Get(putRequestContent, "config").Null? ==> GetConfig(Current, "", source, codec) == Success(map[]))
      && (Get(putRequestContent, "config").Object? && RoundTrips(codec, putRequestContent["config"].fields) ==>
            forall rewriterId :: GetConfig(Current, rewriterId, source, codec) == Success(putRequestContent["config"].fields))
  {
    var source: JavaMap := map[];
    source := source[PROP_TYPE := Str(TYPE_REWRITER)];
    source := source[PROP_VERSION := Int(CURRENT_MAPPING_VERSION)];
    source := source[Current.RewriterClassNameProperty() := Get(putRequestContent, "class")];
    var infoLoggingConfig := CastMap(Get(putRequestContent, "info_logging"));
    if infoLoggingConfig.Failure? {
      return Failure(infoLoggingConfig.error);
    }
    if infoLoggingConfig.value.Some? {
      source := source[Current.InfoLoggingProperty() := Object(infoLoggingConfig.value.value)];
    }
    var config := CastMap(Get(putRequestContent, "config"));
    if config.Failure? {
      return Failure(config.error);
    }
    if config.value.Some? {
      source := source[Current.ConfigStringProperty() := Str(codec.serialize(config.value.value))];
    }
    return Success(source);
  }

  /** `LoadRewriterConfig`, the parsed form of a stored definition:
      the rewriter id, the layout, the class name, the configuration and the
      logging settings. */
  datatype LoadRewriterConfig = LoadRewriterConfig(
    rewriterId: string,
    configMapping: Mapping,
    rewriterClassName: Option<string>,
    config: JavaMap,
    infoLoggingConfig: Option<JavaMap>)

  /** `new LoadRewriterConfig(rewriterId, source)`: the layout, then the
      class name, the configuration and the logging settings, each read as
      that layout says. */
  function NewLoadRewriterConfig(rewriterId: string, source: JavaMap, codec: JsonCodec): (r: Result<LoadRewriterConfig, JavaException>)
    ensures r.Success? ==>
      && r.value.rewriterId == rewriterId
      && GetMapping(source) == Success(r.value.configMapping)
      && r.value.configMapping.RewriterClassName(source) == Success(r.value.rewriterClassName)
      && GetConfig(r.value.configMapping, rewriterId, source, codec) == Success(r.value.config)
      && r.value.configMapping.InfoLoggingConfig(source) == Success(r.value.infoLoggingConfig)
    // The reads happen in this order, and the first that throws decides
    // the exception.
    ensures GetMapping(source).Failure? ==> r == Failure(GetMapping(source).error)
    ensures GetMapping(source).Success? ==>
      var mapping := GetMapping(source).value;
      var className := mapping.RewriterClassName(source);
      var config := GetConfig(mapping, rewriterId, source, codec);
      var infoLogging := mapping.InfoLoggingConfig(source);
      && (className.Failure? ==> r == Failure(className.error))
      && (className.Success? && config.Failure? ==> r == Failure(config.error))
      && (className.Success? && config.Success? && infoLogging.Failure? ==> r == Failure(infoLogging.error))
      && (r.Success? <==> className.Success? && config.Success? && infoLogging.Success?)
      && (r.Success? ==>
            r.value == LoadRewriterConfig(rewriterId, mapping, className.value, config.value, infoLogging.value))
  {
    var mapping :- GetMapping(source);
    var className :- mapping.RewriterClassName(source);
    var config :- GetConfig(mapping, rewriterId, source, codec);
    var infoLogging :- mapping.InfoLoggingConfig(source);
    Success(LoadRewriterConfig(rewriterId, mapping, className, config, infoLogging))
  }
}
