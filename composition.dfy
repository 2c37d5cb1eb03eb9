/**
 * How the two handlers compose on one field: both address the resolver
 * through the same `ResolverResourceID(type, field)` key, so `@pipeline`
 * followed by `@dynamodb(name: ...)` occurrences builds a pipeline.
 */
module Composition {
  import opened Wrappers
  import opened Resources
  import opened Context
  import opened PipelineResolverResourceIDs
  import DynamoDBTransformer
  import PipelineTransformer

  /** The arguments of successive `@dynamodb` occurrences on one field (the directive is repeatable). */
  type Occurrences = seq<seq<DynamoDBTransformer.Argument>>

  /** What `getArg("table")` returns for an occurrence. */
  function TableArg(args: seq<DynamoDBTransformer.Argument>): Option<DynamoDBTransformer.ArgValue>
  {
    DynamoDBTransformer.GetArg(args, "table", None)
  }

  /** What `getArg("name")` returns for an occurrence. */
  function NameArg(args: seq<DynamoDBTransformer.Argument>): Option<DynamoDBTransformer.ArgValue>
  {
    DynamoDBTransformer.GetArg(args, "name", None)
  }

  /** An occurrence that names a table and a function whose ID is not the resolver key. */
  predicate WellFormed(n: Naming, typeName: string, fieldName: string, args: seq<DynamoDBTransformer.Argument>)
  {
    && DynamoDBTransformer.Table(n, TableArg(args)).Success?
    && DynamoDBTransformer.IsTruthy(NameArg(args))
    && DynamoDBTransformer.FunctionId(n, typeName, fieldName, NameArg(args)) != DynamoDBTransformer.ResolverKey(n, typeName, fieldName)
  }

  /**
   * When the resolver key ends in "Resolver", as graphql-transformer-common's
   * resolver IDs do, an occurrence naming a table and a function is
   * well-formed: its function ID cannot clash with the key.
   */
  lemma WellFormedWhenKeyEndsInResolver(n: Naming, typeName: string, fieldName: string, args: seq<DynamoDBTransformer.Argument>)
    requires DynamoDBTransformer.Table(n, TableArg(args)).Success?
    requires DynamoDBTransformer.IsTruthy(NameArg(args))
    requires var key := DynamoDBTransformer.ResolverKey(n, typeName, fieldName);
             |key| >= 8 && key[|key| - 8..] == "Resolver"
    ensures WellFormed(n, typeName, fieldName, args)
  {
    FunctionIdIsNotResolverKey(n, fieldName, typeName, NameArg(args).value.s,
                               DynamoDBTransformer.ResolverKey(n, typeName, fieldName));
  }

  /** The host running the `@dynamodb` handler once per occurrence, stopping at the first error. */
  function ApplyDynamoDB(n: Naming, t: Tables, typeName: string, fieldName: string, occs: Occurrences): (e: Effect)
    ensures t.resources.Keys <= e.after.resources.Keys && t.stackOf.Keys <= e.after.stackOf.Keys
    // once the first occurrence succeeds, a resource stays at the resolver key whatever the later ones do
    ensures occs != [] && DynamoDBTransformer.FieldEffect(n, t, typeName, fieldName, TableArg(occs[0]), NameArg(occs[0])).outcome == Pass
            ==> DynamoDBTransformer.ResolverKey(n, typeName, fieldName) in e.after.resources
    decreases |occs|
  {
    if occs == [] then Effect(Pass, t)
    else
      var e := DynamoDBTransformer.FieldEffect(n, t, typeName, fieldName, TableArg(occs[0]), NameArg(occs[0]));
      if e.outcome.Fail? then e else ApplyDynamoDB(n, e.after, typeName, fieldName, occs[1..])
  }

  /** The references the occurrences' functions contribute, in order. */
  function FunctionRefs(n: Naming, typeName: string, fieldName: string, occs: Occurrences): seq<Ref>
    requires forall i :: 0 <= i < |occs| ==> WellFormed(n, typeName, fieldName, occs[i])
    decreases |occs|
  {
    if occs == [] then []
    else
      assert WellFormed(n, typeName, fieldName, occs[0]);
      [GetAtt(DynamoDBTransformer.FunctionId(n, typeName, fieldName, NameArg(occs[0])), "FunctionId")]
         + FunctionRefs(n, typeName, fieldName, occs[1..])
  }

  /** The ID of the last occurrence's function. */
  function LastFunctionId(n: Naming, typeName: string, fieldName: string, occs: Occurrences): string
    requires occs != [] && WellFormed(n, typeName, fieldName, occs[|occs| - 1])
  {
    DynamoDBTransformer.FunctionId(n, typeName, fieldName, NameArg(occs[|occs| - 1]))
  }

  lemma ConcatAssociative<T>(a: seq<T>, b: seq<T>, c: seq<T>)
    ensures a + (b + c) == (a + b) + c
  {
  }

  /**
   * Successive well-formed `@dynamodb` occurrences on a pipeline resolver
   * whose Functions is an array all succeed, append their functions in
   * occurrence order, and leave the resolver depending on the last one only
   * (each `dependsOn` replaces the previous dependency); nothing else about
   * the resolver changes.
   */
  lemma {:induction false} OccurrencesExtendPipeline(n: Naming, t: Tables, typeName: string, fieldName: string, occs: Occurrences)
    requires DynamoDBTransformer.ResolverKey(n, typeName, fieldName) in t.resources
    requires var r := t.resources[DynamoDBTransformer.ResolverKey(n, typeName, fieldName)];
             IsPipelineResolver(r) && r.pipelineConfig.Some? && r.pipelineConfig.value.FunctionArray?
    requires forall i :: 0 <= i < |occs| ==> WellFormed(n, typeName, fieldName, occs[i])
    ensures var e := ApplyDynamoDB(n, t, typeName, fieldName, occs);
            var key := DynamoDBTransformer.ResolverKey(n, typeName, fieldName);
            var r0 := t.resources[key];
            && e.outcome == Pass
            && key in e.after.resources
            && var r := e.after.resources[key];
            && IsPipelineResolver(r)
            && r.pipelineConfig == Some(FunctionArray(r0.pipelineConfig.value.refs + FunctionRefs(n, typeName, fieldName, occs)))
            && r.dependsOn == (if occs == [] then r0.dependsOn else {LastFunctionId(n, typeName, fieldName, occs)})
            && r.(pipelineConfig := r0.pipelineConfig, dependsOn := r0.dependsOn) == r0
    decreases |occs|
  {
    var key := DynamoDBTransformer.ResolverKey(n, typeName, fieldName);
    var r0 := t.resources[key];
    if occs == [] {
      assert r0.pipelineConfig.value.refs + [] == r0.pipelineConfig.value.refs;
    } else {
      assert WellFormed(n, typeName, fieldName, occs[0]);
      var e := DynamoDBTransformer.FieldEffect(n, t, typeName, fieldName, TableArg(occs[0]), NameArg(occs[0]));
      var id := DynamoDBTransformer.FunctionId(n, typeName, fieldName, NameArg(occs[0]));
      DynamoDBTransformer.PipelineAppendsFunction(n, t, typeName, fieldName, TableArg(occs[0]), NameArg(occs[0]));
      var r1 := e.after.resources[key];
      assert e.outcome == Pass;
      assert ApplyDynamoDB(n, t, typeName, fieldName, occs) == ApplyDynamoDB(n, e.after, typeName, fieldName, occs[1..]);
      assert forall i :: 0 <= i < |occs[1..]| ==> WellFormed(n, typeName, fieldName, occs[1..][i]) by {
        forall i | 0 <= i < |occs[1..]| ensures WellFormed(n, typeName, fieldName, occs[1..][i]) {
          assert occs[1..][i] == occs[i + 1];
        }
      }
      OccurrencesExtendPipeline(n, e.after, typeName, fieldName, occs[1..]);
      assert FunctionRefs(n, typeName, fieldName, occs) == [GetAtt(id, "FunctionId")] + FunctionRefs(n, typeName, fieldName, occs[1..]);
      if occs[1..] != [] {
        assert occs[1..][|occs[1..]| - 1] == occs[|occs| - 1];
      }
      assert r1.pipelineConfig.value.refs == r0.pipelineConfig.value.refs + [GetAtt(id, "FunctionId")];
      ConcatAssociative(r0.pipelineConfig.value.refs, [GetAtt(id, "FunctionId")], FunctionRefs(n, typeName, fieldName, occs[1..]));
    }
  }

  /** `@pipeline` then `@dynamodb` occurrences on a fresh field: the pipeline holds exactly their functions, in order. */
  lemma PipelineThenOccurrences(n: Naming, t: Tables, typeName: string, fieldName: string, occs: Occurrences)
    requires DynamoDBTransformer.ResolverKey(n, typeName, fieldName) !in t.resources
    requires forall i :: 0 <= i < |occs| ==> WellFormed(n, typeName, fieldName, occs[i])
    ensures var e := ApplyDynamoDB(n, PipelineTransformer.FieldEffect(n, t, typeName, fieldName), typeName, fieldName, occs);
            var key := DynamoDBTransformer.ResolverKey(n, typeName, fieldName);
            && e.outcome == Pass
            && key in e.after.resources
            && var r := e.after.resources[key];
            && IsPipelineResolver(r)
            && r.fieldName == fieldName && r.typeName == typeName
            && r.pipelineConfig == Some(FunctionArray(FunctionRefs(n, typeName, fieldName, occs)))
            && r.dependsOn == (if occs == [] then {} else {LastFunctionId(n, typeName, fieldName, occs)})
  {
    var t1 := PipelineTransformer.FieldEffect(n, t, typeName, fieldName);
    PipelineTransformer.CreatesEmptyPipelineResolver(n, t, typeName, fieldName);
    OccurrencesExtendPipeline(n, t1, typeName, fieldName, occs);
    assert [] + FunctionRefs(n, typeName, fieldName, occs) == FunctionRefs(n, typeName, fieldName, occs);
  }

  /**
   * `@pipeline` then one `@dynamodb(name: ...)` on the same field: the
   * resolver's Functions holds exactly the new function, and both the
   * resolver and the function are mapped to the function stack.
   */
  lemma PipelineThenDynamoDB(n: Naming, t: Tables, typeName: string, fieldName: string, args: seq<DynamoDBTransformer.Argument>)
    requires DynamoDBTransformer.ResolverKey(n, typeName, fieldName) !in t.resources
    requires WellFormed(n, typeName, fieldName, args)
    ensures var e := DynamoDBTransformer.FieldEffect(n, PipelineTransformer.FieldEffect(n, t, typeName, fieldName), typeName, fieldName, TableArg(args), NameArg(args));
            var key := DynamoDBTransformer.ResolverKey(n, typeName, fieldName);
            var id := DynamoDBTransformer.FunctionId(n, typeName, fieldName, NameArg(args));
            && e.outcome == Pass
            && key in e.after.resources
            && e.after.resources[key].Resolver?
            && e.after.resources[key].pipelineConfig == Some(FunctionArray([GetAtt(id, "FunctionId")]))
            && key in e.after.stackOf && e.after.stackOf[key] == FUNCTION_DIRECTIVE_STACK
            && id in e.after.stackOf && e.after.stackOf[id] == FUNCTION_DIRECTIVE_STACK
  {
    var t1 := PipelineTransformer.FieldEffect(n, t, typeName, fieldName);
    PipelineTransformer.CreatesEmptyPipelineResolver(n, t, typeName, fieldName);
    DynamoDBTransformer.PipelineAppendsFunction(n, t1, typeName, fieldName, TableArg(args), NameArg(args));
    DynamoDBTransformer.PipelineStoresFunction(n, t1, typeName, fieldName, TableArg(args), NameArg(args));
  }

  /**
   * The same composition on the host's context object: running the two
   * handlers on a field that has no resolver leaves a pipeline resolver whose
   * Functions holds exactly the new function.
   */
  method PipelineThenDynamoDBOnContext(n: Naming, ctx: TransformerContext, typeName: string, fieldName: string,
                                       args: seq<DynamoDBTransformer.Argument>)
    returns (outcome: Outcome<TransformError>)
    requires DynamoDBTransformer.ResolverKey(n, typeName, fieldName) !in ctx.resources
    requires WellFormed(n, typeName, fieldName, args)
    modifies ctx
    ensures outcome == Pass
    ensures var key := DynamoDBTransformer.ResolverKey(n, typeName, fieldName);
            && key in ctx.resources && ctx.resources[key].Resolver?
            && ctx.resources[key].pipelineConfig
               == Some(FunctionArray([GetAtt(DynamoDBTransformer.FunctionId(n, typeName, fieldName, NameArg(args)), "FunctionId")]))
  {
    ghost var t := ctx.State();
    PipelineTransformer.Field(n, ctx, typeName, fieldName);
    outcome := DynamoDBTransformer.Field(n, ctx, typeName, fieldName, args);
    PipelineThenDynamoDB(n, t, typeName, fieldName, args);
  }
}
