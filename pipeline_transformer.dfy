/** The `@pipeline` field handler. */
module PipelineTransformer {
  import opened Wrappers
  import opened Resources
  import opened Context

  /** `resolver(field, type)`: a PIPELINE resolver with no functions yet. */
  function PipelineResolver(n: Naming, fieldName: string, typeName: string): (r: Resource)
    ensures IsPipelineResolver(r) && r.pipelineConfig == Some(FunctionArray([]))
    ensures r.fieldName == fieldName && r.typeName == typeName
    ensures r.apiId == GetAtt(n.graphQLApiLogicalId, "ApiId") && r.dataSourceName.None? && r.dependsOn == {}
    ensures r.requestTemplate == StashTypeAndField(typeName, fieldName) && r.responseTemplate == PreviousResult
  {
    Resolver(GetAtt(n.graphQLApiLogicalId, "ApiId"), Some("PIPELINE"), fieldName, typeName, None,
             Some(FunctionArray([])), StashTypeAndField(typeName, fieldName), PreviousResult, {})
  }

  /** What `field` does to the tables: create the pipeline resolver only when the key is free. */
  function FieldEffect(n: Naming, t: Tables, typeName: string, fieldName: string): (after: Tables)
    // afterwards a resource sits at the key, and only that key can have been added
    ensures after.resources.Keys == t.resources.Keys + {n.resolverResourceId(typeName, fieldName)}
    ensures t.stackOf.Keys <= after.stackOf.Keys <= t.stackOf.Keys + {n.resolverResourceId(typeName, fieldName)}
    // nothing that was there is overwritten
    ensures forall k :: k in t.resources ==> after.resources[k] == t.resources[k]
  {
    var key := n.resolverResourceId(typeName, fieldName);
    if key in t.resources then t
    else Tables(t.resources[key := PipelineResolver(n, fieldName, typeName)],
                t.stackOf[key := FUNCTION_DIRECTIVE_STACK])
  }

  /** The handler itself, on the host's context. It never raises. */
  method Field(n: Naming, ctx: TransformerContext, typeName: string, fieldName: string)
    modifies ctx
    ensures ctx.State() == FieldEffect(n, old(ctx.State()), typeName, fieldName)
  {
    var resolverKey := n.resolverResourceId(typeName, fieldName);
    var resolver := ctx.GetResource(resolverKey);
    if resolver.None? {
      ctx.SetResource(resolverKey, PipelineResolver(n, fieldName, typeName));
      ctx.MapResourceToStack(FUNCTION_DIRECTIVE_STACK, resolverKey);
    }
  }

  // Properties of the handler.

  /** On a free key the handler creates an empty PIPELINE resolver for the field, in the function stack. */
  lemma CreatesEmptyPipelineResolver(n: Naming, t: Tables, typeName: string, fieldName: string)
    requires n.resolverResourceId(typeName, fieldName) !in t.resources
    ensures var after := FieldEffect(n, t, typeName, fieldName);
            var key := n.resolverResourceId(typeName, fieldName);
            && key in after.resources && key in after.stackOf
            && var r := after.resources[key];
            && IsPipelineResolver(r)
            && r.pipelineConfig == Some(FunctionArray([]))
            && r.fieldName == fieldName && r.typeName == typeName
            && r.dependsOn == {}
            && after.stackOf[key] == FUNCTION_DIRECTIVE_STACK
  {
  }

  /** When any resource already sits at the key, nothing changes. */
  lemma ExistingResourceUnchanged(n: Naming, t: Tables, typeName: string, fieldName: string)
    requires n.resolverResourceId(typeName, fieldName) in t.resources
    ensures FieldEffect(n, t, typeName, fieldName) == t
  {
  }

  /** Applying the handler twice is the same as applying it once. */
  lemma Idempotent(n: Naming, t: Tables, typeName: string, fieldName: string)
    ensures FieldEffect(n, FieldEffect(n, t, typeName, fieldName), typeName, fieldName)
            == FieldEffect(n, t, typeName, fieldName)
  {
  }

  /** Every other key is untouched in both tables. */
  lemma OtherKeysUntouched(n: Naming, t: Tables, typeName: string, fieldName: string, k: string)
    requires k != n.resolverResourceId(typeName, fieldName)
    ensures var after := FieldEffect(n, t, typeName, fieldName);
            && (k in after.resources <==> k in t.resources)
            && (k in t.resources ==> after.resources[k] == t.resources[k])
            && (k in after.stackOf <==> k in t.stackOf)
            && (k in t.stackOf ==> after.stackOf[k] == t.stackOf[k])
  {
  }
}
