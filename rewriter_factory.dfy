/** `OpenSearchRewriterFactory`: finding the factory class a rewriter
    definition names and creating it for a rewriter id. Reflection
    (`Class.forName(...).getConstructor(String.class).newInstance(id)`) is
    replaced by a registry from class names to the classes that exist. */
module OpenSearchRewriterFactory {
  import opened Wrappers
  import opened JavaLang
  import opened Exceptions
  import opened Values
  import opened RewriterConfigMapping

  /** What the model knows of a factory class: how it validates a
      configuration (`validateConfiguration`, a list of errors or `null`, or
      an exception) and whether `configure` accepts one. Both are the
      class's own code, outside this model. */
  datatype RewriterClass = RewriterClass(
    validateConfiguration: Option<JavaMap> -> Result<Option<seq<string>>, JavaException>,
    configure: JavaMap -> Outcome<JavaException>)

  type Registry = map<string, RewriterClass>

  /** A created factory: its class, the rewriter id it was created for, and
      the configuration it was configured with, if any. */
  datatype Factory = Factory(className: string, rewriterId: string, configuredWith: Option<JavaMap>) {
    function GetRewriterId(): string {
      rewriterId
    }
  }

  /** The null and blank checks on a class property, then trimming. */
  function CheckedClassName(classField: Option<string>, property: string): (r: Result<string, JavaException>)
    ensures classField.None? ==> r == Failure(IllegalArgument("Property not found: " + property))
    ensures classField.Some? && IsBlank(classField.value) ==>
      r == Failure(IllegalArgument("Class name expected in property: " + property))
    ensures classField.Some? && !IsBlank(classField.value) ==> r == Success(Trim(classField.value))
    ensures r.Success? ==> r.value != [] && Trim(r.value) == r.value
  {
    if classField.None? then Failure(IllegalArgument("Property not found: " + property))
    else
      var className := Trim(classField.value);
      if className == [] then Failure(IllegalArgument("Class name expected in property: " + property))
      else
        TrimIdempotent(classField.value);
        Success(className)
  }

  /** The reflective constructor call: an unknown class fails with a
      `ClassNotFoundException` wrapped in a `RuntimeException`. */
  function Instantiate(className: string, rewriterId: string, registry: Registry): (r: Result<Factory, JavaException>)
    ensures r.Success? <==> className in registry
    ensures r.Success? ==> r.value == Factory(className, rewriterId, None)
    ensures r.Failure? ==> r.error == ClassNotFound(className)
  {
    if className in registry then Success(Factory(className, rewriterId, None))
    else Failure(ClassNotFound(className))
  }

  /** `loadConfiguredInstance`: the factory class the definition names,
      created for its rewriter id and configured with its configuration. */
  function LoadConfiguredInstance(desc: LoadRewriterConfig, registry: Registry): (r: Result<Factory, JavaException>)
    ensures desc.rewriterClassName.None? ==>
      r == Failure(IllegalArgument("Property not found: " + desc.configMapping.RewriterClassNameProperty()))
    ensures desc.rewriterClassName.Some? && IsBlank(desc.rewriterClassName.value) ==>
      r == Failure(IllegalArgument("Class name expected in property: " + desc.configMapping.RewriterClassNameProperty()))
    ensures desc.rewriterClassName.Some? && !IsBlank(desc.rewriterClassName.value) ==>
      var className := Trim(desc.rewriterClassName.value);
      && (className !in registry ==> r == Failure(ClassNotFound(className)))
      && (className in registry ==>
            r == match registry[className].configure(desc.config)
                 case Pass => Success(Factory(className, desc.rewriterId, Some(desc.config)))
                 case Fail(e) => Failure(e))
    ensures r.Success? ==> r.value.GetRewriterId() == desc.rewriterId && r.value.configuredWith == Some(desc.config)
  {
    var className :- CheckedClassName(desc.rewriterClassName, desc.configMapping.RewriterClassNameProperty());
    var factory :- Instantiate(className, desc.rewriterId, registry);
    match registry[className].configure(desc.config)
    case Pass => Success(factory.(configuredWith := Some(desc.config)))
    case Fail(e) => Failure(e)
  }

  /** `loadInstance`: the factory class `instanceDesc[argName]` names,
      created for `rewriterId` and not configured. */
  function LoadInstance(rewriterId: string, instanceDesc: JavaMap, argName: string, registry: Registry): (r: Result<Factory, JavaException>)
    ensures !(Get(instanceDesc, argName).Null? || Get(instanceDesc, argName).Str?) ==>
      r == Failure(ClassCast("java.lang.String"))
    ensures Get(instanceDesc, argName).Null? ==> r == Failure(IllegalArgument("Property not found: " + argName))
    ensures Get(instanceDesc, argName).Str? && IsBlank(Get(instanceDesc, argName).s) ==>
      r == Failure(IllegalArgument("Class name expected in property: " + argName))
    ensures Get(instanceDesc, argName).Str? && !IsBlank(Get(instanceDesc, argName).s) ==>
      var className := Trim(Get(instanceDesc, argName).s);
      r == if className in registry then Success(Factory(className, rewriterId, None))
           else Failure(ClassNotFound(className))
  {
    var classField :- CastString(Get(instanceDesc, argName));
    var className :- CheckedClassName(classField, argName);
    Instantiate(className, rewriterId, registry)
  }

  /** Both loaders find the same class and create the factory for the same
      id; they differ only in whether it is configured, and the configured
      one also fails when `configure` throws. */
  lemma LoadersAgree(desc: LoadRewriterConfig, source: JavaMap, registry: Registry)
    requires desc.configMapping.RewriterClassName(source) == Success(desc.rewriterClassName)
    ensures var configured := LoadConfiguredInstance(desc, registry);
      var plain := LoadInstance(desc.rewriterId, source, desc.configMapping.RewriterClassNameProperty(), registry);
      && (configured.Success? ==> plain == Success(configured.value.(configuredWith := None)))
      && (plain.Failure? ==> configured == Failure(plain.error))
  {
    var property := desc.configMapping.RewriterClassNameProperty();
    var checked := CheckedClassName(desc.rewriterClassName, property);
    assert CastString(Get(source, property)) == Success(desc.rewriterClassName);
    if checked.Success? {
      var className := checked.value;
      assert LoadInstance(desc.rewriterId, source, property, registry)
        == Instantiate(className, desc.rewriterId, registry);
      if className in registry {
        assert LoadConfiguredInstance(desc, registry)
          == match registry[className].configure(desc.config)
             case Pass => Success(Factory(className, desc.rewriterId, Some(desc.config)))
             case Fail(e) => Failure(e);
      } else {
        assert LoadConfiguredInstance(desc, registry) == Failure(ClassNotFound(className));
      }
    } else {
      assert LoadInstance(desc.rewriterId, source, property, registry) == Failure(checked.error);
      assert LoadConfiguredInstance(desc, registry) == Failure(checked.error);
    }
  }
}
