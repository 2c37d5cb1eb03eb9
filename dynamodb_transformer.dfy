/** The `@dynamodb(table: String!, name: String)` field handler. */
module DynamoDBTransformer {
  import opened Wrappers
  import opened Resources
  import opened Context
  import opened PipelineResolverResourceIDs

  /** A directive argument's value as `valueFromASTUntyped` yields it for a String argument. */
  datatype ArgValue = StringValue(s: string) | NullValue

  /** One argument of the directive occurrence. */
  datatype Argument = Argument(name: string, value: ArgValue)

  const NAME_REQUIRED := "Name must be specified when in pipeline context"
  const FUNCTION_VERSION := "2018-05-29"

  /** `getArg(name, dflt)`: the value of the first argument called `name`, or `dflt` if there is none. */
  function GetArg(args: seq<Argument>, name: string, dflt: Option<ArgValue>): (v: Option<ArgValue>)
    ensures (forall i :: 0 <= i < |args| ==> args[i].name != name) ==> v == dflt
    ensures forall i :: 0 <= i < |args| && args[i].name == name && (forall j :: 0 <= j < i ==> args[j].name != name) ==>
              v == Some(args[i].value)
  {
    if args == [] then dflt
    else if args[0].name == name then Some(args[0].value)
    else GetArg(args[1..], name, dflt)
  }

  /** JavaScript truthiness of `getArg("name")`: absent, null and "" are all falsy. */
  function IsTruthy(v: Option<ArgValue>): (b: bool)
    ensures b <==> v !in {None, Some(NullValue), Some(StringValue(""))}
  {
    v.Some? && v.value.StringValue? && v.value.s != ""
  }

  /** The properties `conf` gives both the unit resolver and the pipeline function. */
  datatype Config = Config(apiId: Ref, dataSourceName: string, requestTemplate: Template, responseTemplate: Template)

  /** `conf(table, field, type)`: the API, the `<table>Table` data source and the fixed templates, whatever the field and type. */
  function Conf(n: Naming, table: string, fieldName: string, typeName: string): (c: Config)
    ensures c.apiId == GetAtt(n.graphQLApiLogicalId, "ApiId")
    ensures |c.dataSourceName| == |table| + 5
    ensures c.dataSourceName[..|table|] == table && c.dataSourceName[|table|..] == "Table"
    ensures c.requestTemplate == DynamoDBRequest && c.responseTemplate == DynamoDBResponse
  {
    Config(GetAtt(n.graphQLApiLogicalId, "ApiId"), table + "Table", DynamoDBRequest, DynamoDBResponse)
  }

  /** `resolver(table, field, type)`: a unit resolver on the table's data source. */
  function UnitResolver(n: Naming, table: string, fieldName: string, typeName: string): (r: Resource)
    ensures r.Resolver? && !IsPipelineResolver(r) && r.kind.None? && r.pipelineConfig.None?
    ensures r.fieldName == fieldName && r.typeName == typeName && r.dependsOn == {}
    ensures var c := Conf(n, table, fieldName, typeName);
            && r.apiId == c.apiId && r.dataSourceName == Some(c.dataSourceName)
            && r.requestTemplate == c.requestTemplate && r.responseTemplate == c.responseTemplate
  {
    var c := Conf(n, table, fieldName, typeName);
    Resolver(c.apiId, None, fieldName, typeName, Some(c.dataSourceName), None,
             c.requestTemplate, c.responseTemplate, {})
  }

  /** `func(table, field, type, name)`: a pipeline function on the table's data source. */
  function PipelineFunction(n: Naming, table: string, fieldName: string, typeName: string, name: string): (f: Resource)
    ensures f.FunctionConfiguration? && !IsPipelineResolver(f)
    ensures f.name == DynamoDBAppSyncFunctionConfigurationID(n, fieldName, typeName, name)
    ensures f.functionVersion == "2018-05-29"
    ensures var c := Conf(n, table, fieldName, typeName);
            && f.apiId == c.apiId && f.dataSourceName == Some(c.dataSourceName)
            && f.requestTemplate == c.requestTemplate && f.responseTemplate == c.responseTemplate
  {
    var c := Conf(n, table, fieldName, typeName);
    FunctionConfiguration(c.apiId, DynamoDBAppSyncFunctionConfigurationID(n, fieldName, typeName, name),
                          Some(c.dataSourceName), FUNCTION_VERSION, c.requestTemplate, c.responseTemplate)
  }

  /**
   * `appendFunctionToResolver(resolver, functionId)`: adds a reference to the
   * function's FunctionId at the end of the resolver's pipeline and makes the
   * resolver depend on the function. cloudform-types' `dependsOn` assigns
   * `DependsOn`, so the function becomes the resolver's only dependency. The JavaScript pushes onto the stored
   * object; here the updated resolver is returned.
   */
  function AppendFunctionToResolver(resolver: Resource, functionId: string): (r: Result<Resource, TransformError>)
    requires resolver.Resolver?
    ensures r.Success? <==> resolver.pipelineConfig.Some? && resolver.pipelineConfig.value.FunctionArray?
    ensures resolver.pipelineConfig.None? ==> r == Failure(NoPipelineConfig)
    ensures resolver.pipelineConfig == Some(NotAnArray) ==> r == Failure(UnableToAddFunction)
    ensures r.Success? ==>
      var before := resolver.pipelineConfig.value.refs;
      && r.value.Resolver?
      && r.value.pipelineConfig.Some? && r.value.pipelineConfig.value.FunctionArray?
      && var after := r.value.pipelineConfig.value.refs;
      && |after| == |before| + 1
      && after[..|before|] == before
      && after[|before|] == GetAtt(functionId, "FunctionId")
      && r.value.dependsOn == {functionId}
      && r.value.(pipelineConfig := resolver.pipelineConfig, dependsOn := resolver.dependsOn) == resolver
  {
    match resolver.pipelineConfig
    case None => Failure(NoPipelineConfig)
    case Some(NotAnArray) => Failure(UnableToAddFunction)
    case Some(FunctionArray(refs)) =>
      Success(resolver.(pipelineConfig := Some(FunctionArray(refs + [GetAtt(functionId, "FunctionId")])),
                        dependsOn := {functionId}))
  }

  /** `toUpper(getArg("table"))`: the uppercased table name, or the error raised when there is no string to uppercase. */
  function Table(n: Naming, tableArg: Option<ArgValue>): (r: Result<string, TransformError>)
    ensures r.Success? <==> tableArg.Some? && tableArg.value.StringValue?
    ensures r.Success? ==> r.value == n.toUpper(tableArg.value.s)
    ensures r.Failure? ==> r.error == TableNotAString
  {
    if tableArg.Some? && tableArg.value.StringValue? then Success(n.toUpper(tableArg.value.s)) else Failure(TableNotAString)
  }

  /** The key both handlers use for the resolver of `typeName.fieldName`. */
  function ResolverKey(n: Naming, typeName: string, fieldName: string): string
  {
    n.resolverResourceId(typeName, fieldName)
  }

  /** The ID of the function a truthy `name` argument creates. */
  function FunctionId(n: Naming, typeName: string, fieldName: string, nameArg: Option<ArgValue>): string
    requires IsTruthy(nameArg)
  {
    DynamoDBAppSyncFunctionConfigurationID(n, fieldName, typeName, nameArg.value.s)
  }

  /**
   * What `field` does to the tables: create a unit resolver where there is
   * none; inside a pipeline resolver, store a function, map it to the
   * function stack and append it to the pipeline; otherwise nothing.
   * `tableArg` and `nameArg` are what `getArg("table")` and `getArg("name")` return.
   */
  function FieldEffect(n: Naming, t: Tables, typeName: string, fieldName: string,
                       tableArg: Option<ArgValue>, nameArg: Option<ArgValue>): (e: Effect)
    // nothing is ever removed from either table
    ensures t.resources.Keys <= e.after.resources.Keys && t.stackOf.Keys <= e.after.stackOf.Keys
    // at most the resolver key and, in a pipeline, the function ID are written
    ensures var written := {ResolverKey(n, typeName, fieldName)} + (if IsTruthy(nameArg) then {FunctionId(n, typeName, fieldName, nameArg)} else {});
            && e.after.resources.Keys <= t.resources.Keys + written
            && e.after.stackOf.Keys <= t.stackOf.Keys + written
    // a handler that succeeds leaves a resource at the resolver key
    ensures e.outcome == Pass ==> ResolverKey(n, typeName, fieldName) in e.after.resources
    // the only errors are the four the handler can raise
    ensures e.outcome.Fail? ==>
              e.outcome.error in {TableNotAString, InvalidDirective(NAME_REQUIRED), NoPipelineConfig, UnableToAddFunction}
  {
    match Table(n, tableArg)
    case Failure(err) => Effect(Fail(err), t)
    case Success(table) =>
      var key := ResolverKey(n, typeName, fieldName);
      if key !in t.resources then
        Effect(Pass, Tables(t.resources[key := UnitResolver(n, table, fieldName, typeName)], t.stackOf[key := table]))
      else if !IsPipelineResolver(t.resources[key]) then
        Effect(Pass, t)
      else if !IsTruthy(nameArg) then
        Effect(Fail(InvalidDirective(NAME_REQUIRED)), t)
      else
        var name := nameArg.value.s;
        var funcId := FunctionId(n, typeName, fieldName, nameArg);
        var stored := Tables(t.resources[funcId := PipelineFunction(n, table, fieldName, typeName, name)],
                             t.stackOf[funcId := FUNCTION_DIRECTIVE_STACK]);
        match AppendFunctionToResolver(t.resources[key], funcId)
        case Failure(err) => Effect(Fail(err), stored)
        case Success(appended) => Effect(Pass, stored.(resources := stored.resources[key := appended]))
  }

  /** The handler itself, on the host's context. */
  method Field(n: Naming, ctx: TransformerContext, typeName: string, fieldName: string, args: seq<Argument>)
    returns (outcome: Outcome<TransformError>)
    modifies ctx
    ensures var e := FieldEffect(n, old(ctx.State()), typeName, fieldName,
                                 GetArg(args, "table", None), GetArg(args, "name", None));
            outcome == e.outcome && ctx.State() == e.after
  {
    var tableArg := GetArg(args, "table", None);
    if !(tableArg.Some? && tableArg.value.StringValue?) {
      return Fail(TableNotAString);
    }
    var table := n.toUpper(tableArg.value.s);
    var name := GetArg(args, "name", None);
    var resolverKey := n.resolverResourceId(typeName, fieldName);
    var resolver := ctx.GetResource(resolverKey);
    if resolver.None? {
      ctx.SetResource(resolverKey, UnitResolver(n, table, fieldName, typeName));
      ctx.MapResourceToStack(table, resolverKey);
    } else if IsPipelineResolver(resolver.value) {
      if !IsTruthy(name) {
        return Fail(InvalidDirective(NAME_REQUIRED));
      }
      var func := PipelineFunction(n, table, fieldName, typeName, name.value.s);
      var funcName := DynamoDBAppSyncFunctionConfigurationID(n, fieldName, typeName, name.value.s);
      ctx.SetResource(funcName, func);
      ctx.MapResourceToStack(FUNCTION_DIRECTIVE_STACK, funcName);
      var appended := AppendFunctionToResolver(resolver.value, funcName);
      if appended.Failure? {
        return Fail(appended.error);
      }
      ctx.SetResource(resolverKey, appended.value);
    }
    outcome := Pass;
  }

  // Properties of the handler.

  /** A missing or null `table` argument raises before anything changes. */
  lemma MissingTableChangesNothing(n: Naming, t: Tables, typeName: string, fieldName: string, tableArg: Option<ArgValue>, nameArg: Option<ArgValue>)
    requires Table(n, tableArg).Failure?
    ensures FieldEffect(n, t, typeName, fieldName, tableArg, nameArg) == Effect(Fail(TableNotAString), t)
  {
  }

  /** Where there is no resolver, a unit resolver on `toUpper(table) + "Table"` is created and mapped to the table's stack. */
  lemma NoResolverCreatesUnitResolver(n: Naming, t: Tables, typeName: string, fieldName: string, s: string, tableArg: Option<ArgValue>, nameArg: Option<ArgValue>)
    requires tableArg == Some(StringValue(s))
    requires ResolverKey(n, typeName, fieldName) !in t.resources
    ensures var e := FieldEffect(n, t, typeName, fieldName, tableArg, nameArg);
            var key := ResolverKey(n, typeName, fieldName);
            && e.outcome == Pass
            && key in e.after.resources && key in e.after.stackOf
            && var r := e.after.resources[key];
            && r.Resolver? && r.kind.None?
            && r.fieldName == fieldName && r.typeName == typeName
            && r.dataSourceName == Some(n.toUpper(s) + "Table")
            && e.after.stackOf[key] == n.toUpper(s)
  {
  }

  /** Inside a pipeline resolver a falsy `name` raises InvalidDirectiveError and nothing changes. */
  lemma PipelineWithoutNameRaises(n: Naming, t: Tables, typeName: string, fieldName: string, tableArg: Option<ArgValue>, nameArg: Option<ArgValue>)
    requires Table(n, tableArg).Success?
    requires ResolverKey(n, typeName, fieldName) in t.resources
    requires IsPipelineResolver(t.resources[ResolverKey(n, typeName, fieldName)])
    requires !IsTruthy(nameArg)
    ensures FieldEffect(n, t, typeName, fieldName, tableArg, nameArg) == Effect(Fail(InvalidDirective(NAME_REQUIRED)), t)
  {
  }

  /**
   * Inside a pipeline resolver with a `name`, the function is stored under its
   * ID, named by that ID and mapped to the function stack, whether or not the
   * append then succeeds.
   */
  lemma PipelineStoresFunction(n: Naming, t: Tables, typeName: string, fieldName: string, tableArg: Option<ArgValue>, nameArg: Option<ArgValue>)
    requires Table(n, tableArg).Success?
    requires ResolverKey(n, typeName, fieldName) in t.resources
    requires IsPipelineResolver(t.resources[ResolverKey(n, typeName, fieldName)])
    requires IsTruthy(nameArg)
    requires FunctionId(n, typeName, fieldName, nameArg) != ResolverKey(n, typeName, fieldName)
    ensures var e := FieldEffect(n, t, typeName, fieldName, tableArg, nameArg);
            var id := FunctionId(n, typeName, fieldName, nameArg);
            && id in e.after.resources && id in e.after.stackOf
            && var f := e.after.resources[id];
            && f == PipelineFunction(n, Table(n, tableArg).value, fieldName, typeName, nameArg.value.s)
            && f.name == id
            && e.after.stackOf[id] == FUNCTION_DIRECTIVE_STACK
  {
  }

  /**
   * Inside a pipeline resolver whose Functions is an array, the handler
   * succeeds and the resolver gains the function at the end of its list.
   */
  lemma PipelineAppendsFunction(n: Naming, t: Tables, typeName: string, fieldName: string, tableArg: Option<ArgValue>, nameArg: Option<ArgValue>)
    requires Table(n, tableArg).Success?
    requires ResolverKey(n, typeName, fieldName) in t.resources
    requires var r := t.resources[ResolverKey(n, typeName, fieldName)];
             IsPipelineResolver(r) && r.pipelineConfig.Some? && r.pipelineConfig.value.FunctionArray?
    requires IsTruthy(nameArg)
    ensures var e := FieldEffect(n, t, typeName, fieldName, tableArg, nameArg);
            var key := ResolverKey(n, typeName, fieldName);
            var id := FunctionId(n, typeName, fieldName, nameArg);
            var old_ := t.resources[key];
            && e.outcome == Pass
            && key in e.after.resources
            && var r := e.after.resources[key];
            && r.Resolver? && r.pipelineConfig.Some? && r.pipelineConfig.value.FunctionArray?
            && r.pipelineConfig.value.refs == old_.pipelineConfig.value.refs + [GetAtt(id, "FunctionId")]
            && r.dependsOn == {id}
            && r.(pipelineConfig := old_.pipelineConfig, dependsOn := old_.dependsOn) == old_
  {
    var key := ResolverKey(n, typeName, fieldName);
    var id := FunctionId(n, typeName, fieldName, nameArg);
    var before := t.resources[key].pipelineConfig.value.refs;
    var r := AppendFunctionToResolver(t.resources[key], id).value;
    assert r.pipelineConfig.value.refs == before + [GetAtt(id, "FunctionId")];
  }

  /**
   * When the append fails, the error surfaces, the function stays stored and
   * mapped, and the resolver entry is left as it was.
   */
  lemma AppendFailureKeepsFunction(n: Naming, t: Tables, typeName: string, fieldName: string, tableArg: Option<ArgValue>, nameArg: Option<ArgValue>)
    requires Table(n, tableArg).Success?
    requires ResolverKey(n, typeName, fieldName) in t.resources
    requires var r := t.resources[ResolverKey(n, typeName, fieldName)];
             IsPipelineResolver(r) && !(r.pipelineConfig.Some? && r.pipelineConfig.value.FunctionArray?)
    requires IsTruthy(nameArg)
    requires FunctionId(n, typeName, fieldName, nameArg) != ResolverKey(n, typeName, fieldName)
    ensures var e := FieldEffect(n, t, typeName, fieldName, tableArg, nameArg);
            var key := ResolverKey(n, typeName, fieldName);
            var id := FunctionId(n, typeName, fieldName, nameArg);
            && e.outcome.Fail?
            && e.outcome.error == (if t.resources[key].pipelineConfig.None? then NoPipelineConfig else UnableToAddFunction)
            && id in e.after.resources && id in e.after.stackOf
            && e.after.resources[id].FunctionConfiguration?
            && e.after.stackOf[id] == FUNCTION_DIRECTIVE_STACK
            && key in e.after.resources && e.after.resources[key] == t.resources[key]
  {
  }

  /** An existing resolver that is not a pipeline resolver is left alone, and so is everything else. */
  lemma NonPipelineChangesNothing(n: Naming, t: Tables, typeName: string, fieldName: string, tableArg: Option<ArgValue>, nameArg: Option<ArgValue>)
    requires ResolverKey(n, typeName, fieldName) in t.resources
    requires !IsPipelineResolver(t.resources[ResolverKey(n, typeName, fieldName)])
    ensures FieldEffect(n, t, typeName, fieldName, tableArg, nameArg).after == t
    ensures Table(n, tableArg).Success? ==> FieldEffect(n, t, typeName, fieldName, tableArg, nameArg).outcome == Pass
  {
  }

  /**
   * An existing resolver is never replaced by a fresh unit resolver: afterwards
   * the key holds the same resolver or its appended version.
   */
  lemma ExistingResolverNeverReplaced(n: Naming, t: Tables, typeName: string, fieldName: string, tableArg: Option<ArgValue>, nameArg: Option<ArgValue>)
    requires ResolverKey(n, typeName, fieldName) in t.resources
    requires IsPipelineResolver(t.resources[ResolverKey(n, typeName, fieldName)]) && IsTruthy(nameArg) ==>
               FunctionId(n, typeName, fieldName, nameArg) != ResolverKey(n, typeName, fieldName)
    ensures var e := FieldEffect(n, t, typeName, fieldName, tableArg, nameArg);
            var key := ResolverKey(n, typeName, fieldName);
            var r := t.resources[key];
            && key in e.after.resources
            && (|| e.after.resources[key] == r
                || (&& IsPipelineResolver(r) && IsTruthy(nameArg)
                    && AppendFunctionToResolver(r, FunctionId(n, typeName, fieldName, nameArg)) == Success(e.after.resources[key])))
  {
  }

  /**
   * Keys other than the resolver key, and other than the new function's ID
   * when a function is stored in a pipeline, are untouched in both tables.
   */
  lemma OtherKeysUntouched(n: Naming, t: Tables, typeName: string, fieldName: string, tableArg: Option<ArgValue>, nameArg: Option<ArgValue>, k: string)
    requires k != ResolverKey(n, typeName, fieldName)
    requires && IsTruthy(nameArg)
             && ResolverKey(n, typeName, fieldName) in t.resources
             && IsPipelineResolver(t.resources[ResolverKey(n, typeName, fieldName)])
             ==> k != FunctionId(n, typeName, fieldName, nameArg)
    ensures var e := FieldEffect(n, t, typeName, fieldName, tableArg, nameArg);
            && (k in e.after.resources <==> k in t.resources)
            && (k in t.resources ==> e.after.resources[k] == t.resources[k])
            && (k in e.after.stackOf <==> k in t.stackOf)
            && (k in t.stackOf ==> e.after.stackOf[k] == t.stackOf[k])
  {
  }

  /** The unit resolver and the pipeline function share conf's data source, API and templates. */
  lemma ResolverAndFunctionShareConf(n: Naming, table: string, fieldName: string, typeName: string, name: string)
    ensures var r := UnitResolver(n, table, fieldName, typeName);
            var f := PipelineFunction(n, table, fieldName, typeName, name);
            && r.dataSourceName == f.dataSourceName == Some(table + "Table")
            && r.apiId == f.apiId == GetAtt(n.graphQLApiLogicalId, "ApiId")
            && r.requestTemplate == f.requestTemplate && r.responseTemplate == f.responseTemplate
            && f.functionVersion == "2018-05-29"
  {
  }
}
