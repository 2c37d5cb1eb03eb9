/**
 * The CloudFormation resources the two directive handlers write into the
 * host's resource table, and the library helpers they call.
 */
module Resources {
  import opened Wrappers

  /**
   * The graphql-transformer-common helpers and the GraphQL API's logical ID.
   * Their definitions belong to that library, so the model leaves them
   * uninterpreted: every property below holds whatever they compute.
   */
  datatype Naming = Naming(
    simplifyName: string -> string,
    toUpper: string -> string,
    resolverResourceId: (string, string) -> string,
    graphQLApiLogicalId: string)

  /** `Fn.GetAtt(logicalId, attribute)`: a reference to an attribute of another resource. */
  datatype Ref = GetAtt(logicalId: string, attribute: string)

  /** The request/response mapping templates, kept as opaque constants. */
  datatype Template =
    | DynamoDBRequest                                     // conf's request template
    | DynamoDBResponse                                    // conf's response template
    | StashTypeAndField(typeName: string, fieldName: string) // pipeline "before" template
    | PreviousResult                                      // pipeline "after" template

  /** The value found at `PipelineConfig.Functions`: an array of references, or anything else. */
  datatype FunctionList = FunctionArray(refs: seq<Ref>) | NotAnArray

  /**
   * An `AppSync.Resolver` or an `AppSync.FunctionConfiguration`. Absent
   * optional properties are `None`; `dependsOn` is the resource's
   * CloudFormation `DependsOn`.
   */
  datatype Resource =
    | Resolver(
        apiId: Ref,
        kind: Option<string>,
        fieldName: string,
        typeName: string,
        dataSourceName: Option<string>,
        pipelineConfig: Option<FunctionList>,
        requestTemplate: Template,
        responseTemplate: Template,
        dependsOn: set<string>)
    | FunctionConfiguration(
        apiId: Ref,
        name: string,
        dataSourceName: Option<string>,
        functionVersion: string,
        requestTemplate: Template,
        responseTemplate: Template)

  /** `resource.Properties.Kind === "PIPELINE"`; a function configuration has no Kind. */
  predicate IsPipelineResolver(r: Resource)
  {
    r.Resolver? && r.kind == Some("PIPELINE")
  }

  /** The errors the handlers raise. */
  datatype TransformError =
    | InvalidDirective(message: string)  // InvalidDirectiveError
    | UnableToAddFunction                // Error("Unable to add function to resolver")
    | NoPipelineConfig                   // TypeError: reading Functions of an absent PipelineConfig
    | TableNotAString                    // TypeError: toUpper of a missing or null table argument

  /** The host's resource table and its resource-to-stack mapping. */
  datatype Tables = Tables(resources: map<string, Resource>, stackOf: map<string, string>)

  /** What a handler raises and the tables it leaves behind. */
  datatype Effect = Effect(outcome: Outcome<TransformError>, after: Tables)

  /** The stack that holds pipeline resolvers and pipeline functions. */
  const FUNCTION_DIRECTIVE_STACK := "FunctionDirectiveStack"
}
