# @dynamodb and @pipeline directive handlers

A Dafny model of two GraphQL schema-directive transformers that plug into a
host transformation pipeline. Both handlers look at the resource stored under
the field's resolver key `ResolverResourceID(type, field)` in the host's
`TransformerContext` and write AppSync resources into it:

- `@pipeline` creates an empty `PIPELINE` resolver where there is none and maps
  it to the `FunctionDirectiveStack` stack.
- `@dynamodb(table, name)` creates a unit resolver on the `toUpper(table) + "Table"`
  data source where there is no resolver. Inside a `PIPELINE` resolver it instead
  stores a function configuration, maps it to `FunctionDirectiveStack`, and
  appends a `Fn.GetAtt(functionId, "FunctionId")` reference to the resolver's
  `PipelineConfig.Functions`, making the function the resolver's dependency. Any
  other existing resource is left alone.
- `DynamoDBAppSyncFunctionConfigurationID(field, type, name)` builds a function's
  logical ID as `simplifyName(type) ++ simplifyName(field) ++ simplifyName(name) ++ "Function"`.

Layout:

- `resources.dfy` (module `Resources`): the resource datatypes, errors, the two
  tables as a value, and a `Naming` record of the library helpers.
- `transformer_context.dfy` (module `Context`): a `TransformerContext` class
  holding the `resources` and `stackOf` maps, with `getResource`, `setResource`
  and `mapResourceToStack`.
- `dynamodb_transformer.dfy`, `pipeline_transformer.dfy`: each handler is a
  method on the context. Its `ensures` ties the new state and the raised error
  to `FieldEffect`, a function of the old tables. The properties are lemmas
  about `FieldEffect`.
- `pipeline_resolver_resource_ids.dfy`: the ID builder.
- `composition.dfy`: `@pipeline` followed by one or more `@dynamodb` occurrences.

The library helpers `simplifyName`, `toUpper`, `ResolverResourceIDs.ResolverResourceID`
and the constant `GraphQLAPILogicalID` are fields of `Naming`. No definition is
given for them, so every property holds whatever they compute. `Fn.GetAtt` is
the symbolic value `GetAtt(logicalId, attribute)`. The mapping templates are
opaque constants. The resolver key and a function ID can clash in this model
because the naming helpers are left uninterpreted. `DynamoDBTransformer.Field` makes its `setResource` and `mapResourceToStack`
calls in the same order as the source, so such a clash is handled as the source would handle
it. Lemmas that need the two keys to differ say so in a `requires`, and
`FunctionIdIsNotResolverKey` shows they differ whenever the resolver key ends
in `Resolver`. `Composition.WellFormedWhenKeyEndsInResolver` turns that into the
no-clash condition the composition lemmas require.

Error paths are `Outcome` values:
- `InvalidDirective` is the missing-name error.
- `UnableToAddFunction` is raised when `Functions` is not an array.
- `NoPipelineConfig` is the TypeError raised when a resolver has no `PipelineConfig`.
- `TableNotAString` is the TypeError raised when `toUpper` is given a missing or
  null `table`.

The name check follows JavaScript truthiness: a missing, null or empty `name`
all raise.

## Model

| member | source | states |
|---|---|---|
| `PipelineResolverResourceIDs.DynamoDBAppSyncFunctionConfigurationID` | src/PipelineResolverResourceIDs.ts:4-6 | the ID starts with `simplifyName(type)`, then `simplifyName(field)`, then `simplifyName(name)`, even though the field is the first parameter; it ends with `"Function"`; its length is the three simplified parts plus 8 |
| `PipelineResolverResourceIDs.FunctionIdIsNotResolverKey` | src/PipelineResolverResourceIDs.ts:5 | a function ID is never equal to a key ending in `Resolver`, because their 8-character suffixes differ |
| `DynamoDBTransformer.GetArg` | src/DynamoDBTransformer.ts:54-58 | returns the value of the first argument with the given name, or the default when no argument has that name |
| `DynamoDBTransformer.AppendFunctionToResolver` | src/DynamoDBTransformer.ts:150-162 | succeeds iff `PipelineConfig.Functions` is an array; otherwise raises `UnableToAddFunction`, or `NoPipelineConfig` when there is no `PipelineConfig`; on success `Functions` grows by exactly one, earlier elements keep their order, the new last element is `GetAtt(functionId, "FunctionId")`, `dependsOn` becomes `{functionId}`, and nothing else about the resolver changes |
| `DynamoDBTransformer.IsTruthy` | src/DynamoDBTransformer.ts:73 | holds exactly when `getArg("name")` is neither absent, null nor the empty string, the values `!name` treats as falsy |
| `DynamoDBTransformer.Table` | src/DynamoDBTransformer.ts:60 | succeeds exactly when the `table` argument is a string, with `toUpper` of that string; otherwise it raises `TableNotAString` |
| `DynamoDBTransformer.Conf` | src/DynamoDBTransformer.ts:120-148 | ApiId is `GetAtt(GraphQLAPILogicalID, "ApiId")`, the data source is the table name followed by `Table`, and the templates are the fixed DynamoDB request and response templates whatever the field and type |
| `DynamoDBTransformer.UnitResolver` | src/DynamoDBTransformer.ts:95-101 | a resolver that is not a PIPELINE resolver (no Kind, no PipelineConfig, no dependencies) with the given FieldName and TypeName and `conf`'s ApiId, data source and templates |
| `DynamoDBTransformer.PipelineFunction` | src/DynamoDBTransformer.ts:103-118 | a function configuration named `DynamoDBAppSyncFunctionConfigurationID(field, type, name)`, with FunctionVersion `2018-05-29` and `conf`'s ApiId, data source and templates |
| `DynamoDBTransformer.FieldEffect` | src/DynamoDBTransformer.ts:60-91 | no key is ever removed from either table; at most the resolver key and, for a truthy name, the function ID are added; a successful run leaves a resource at the resolver key; the only errors raised are the four listed above |
| `DynamoDBTransformer.Field` | src/DynamoDBTransformer.ts:48-93 | the handler on the context: the raised error and the new `resources`/`stackOf` are exactly those of `FieldEffect` for the old tables |
| `DynamoDBTransformer.MissingTableChangesNothing` | src/DynamoDBTransformer.ts:55-60 | a missing or null `table` argument raises before anything is read or written, and both tables stay as they were |
| `DynamoDBTransformer.NoResolverCreatesUnitResolver` | src/DynamoDBTransformer.ts:60-71 | with no resource at the resolver key, the handler succeeds and leaves a resolver there with no Kind, the given field and type names, and data source `toUpper(table) ++ "Table"`; the key is mapped to stack `toUpper(table)` |
| `DynamoDBTransformer.PipelineWithoutNameRaises` | src/DynamoDBTransformer.ts:72-77 | in a PIPELINE resolver, an absent, null or empty `name` raises `InvalidDirectiveError("Name must be specified when in pipeline context")` and neither table changes |
| `DynamoDBTransformer.PipelineStoresFunction` | src/DynamoDBTransformer.ts:80-87 | in a PIPELINE resolver with a `name`, the function configuration built by `func` is stored under its ID. Its `Name` equals that ID, and the ID is mapped to `FunctionDirectiveStack`. This holds whether or not the append then succeeds |
| `DynamoDBTransformer.PipelineAppendsFunction` | src/DynamoDBTransformer.ts:88-91 | in a PIPELINE resolver whose `Functions` is an array, the handler succeeds. Afterwards the resolver key holds the same resolver, with `GetAtt(id, "FunctionId")` appended to `Functions` and `dependsOn` set to `{id}` |
| `DynamoDBTransformer.AppendFailureKeepsFunction` | src/DynamoDBTransformer.ts:86-91 | when `Functions` is not an array (or there is no `PipelineConfig`), the matching error is raised. The function configuration stays stored and mapped to `FunctionDirectiveStack`, and the resolver entry is unchanged |
| `DynamoDBTransformer.NonPipelineChangesNothing` | src/DynamoDBTransformer.ts:68-92 | an existing resource that is not a PIPELINE resolver leaves both tables unchanged, and with a string `table` the handler raises nothing |
| `DynamoDBTransformer.ExistingResolverNeverReplaced` | src/DynamoDBTransformer.ts:68-91 | when a resource exists at the resolver key, afterwards the key holds either that same resource or its appended version; it is never replaced by a fresh unit resolver |
| `DynamoDBTransformer.OtherKeysUntouched` | src/DynamoDBTransformer.ts:66-91 | every key other than the resolver key keeps its presence and its value in both `resources` and `stackOf`; on the PIPELINE path with a name, the new function's ID is excepted too |
| `DynamoDBTransformer.ResolverAndFunctionShareConf` | src/DynamoDBTransformer.ts:95-148 | the unit resolver and the pipeline function share `conf`'s ApiId, its `<table>Table` data source and its templates, and the function pins `FunctionVersion = "2018-05-29"` |
| `PipelineTransformer.PipelineResolver` | src/PipelineTransformer.ts:54-74 | a PIPELINE resolver with empty `Functions`, the given FieldName and TypeName, the API's ApiId, no data source and no dependencies, with the stash request template and the previous-result response template |
| `PipelineTransformer.FieldEffect` | src/PipelineTransformer.ts:46-51 | afterwards the resource keys are the old keys plus the resolver key, the stack keys gain at most that key, and no resource that was there is overwritten |
| `PipelineTransformer.Field` | src/PipelineTransformer.ts:36-52 | the handler on the context: the new `resources`/`stackOf` are exactly those of `FieldEffect` for the old tables |
| `PipelineTransformer.CreatesEmptyPipelineResolver` | src/PipelineTransformer.ts:46-65 | with no resource at the key, afterwards a PIPELINE resolver is there with empty `Functions`, the given field and type names and no dependencies, and the key is mapped to `FunctionDirectiveStack` |
| `PipelineTransformer.ExistingResourceUnchanged` | src/PipelineTransformer.ts:47-51 | when any resource already sits at the key, both tables are unchanged |
| `PipelineTransformer.Idempotent` | src/PipelineTransformer.ts:46-51 | applying the handler twice gives the same tables as applying it once |
| `PipelineTransformer.OtherKeysUntouched` | src/PipelineTransformer.ts:46-51 | every key other than the resolver key keeps its presence and its value in both tables |
| `Composition.PipelineThenDynamoDB` | src/DynamoDBTransformer.ts:66-91 | `@pipeline` then one well-formed `@dynamodb(name: ...)` on a free field leaves a resolver whose `Functions` is exactly `[GetAtt(id, "FunctionId")]`. The resolver and the function are both mapped to `FunctionDirectiveStack`. This holds because both handlers use the same resolver key |
| `Composition.ApplyDynamoDB` | src/DynamoDBTransformer.ts:43 | running the repeatable `@dynamodb` once per occurrence never removes a key from either table, and once the first occurrence succeeds a resource stays at the resolver key, whatever the later occurrences do |
| `Composition.WellFormedWhenKeyEndsInResolver` | src/PipelineResolverResourceIDs.ts:5 | when the resolver key ends in `Resolver`, an occurrence with a string table and a truthy name is well-formed: its function ID cannot clash with the key |
| `Composition.OccurrencesExtendPipeline` | src/DynamoDBTransformer.ts:72-91 | successive well-formed occurrences of the repeatable `@dynamodb` on a pipeline resolver with an array `Functions` all succeed. They append their function references in occurrence order. The resolver then depends on the last occurrence's function only, and nothing else about it changes |
| `Composition.PipelineThenOccurrences` | src/DynamoDBTransformer.ts:66-91 | `@pipeline` then k well-formed `@dynamodb` occurrences on a free field leave a PIPELINE resolver for that field whose `Functions` is exactly the k references, in order, and which depends on the last function only (on nothing when k = 0) |
| `Composition.PipelineThenDynamoDBOnContext` | src/DynamoDBTransformer.ts:66-91 | running `PipelineTransformer.Field` and then `DynamoDBTransformer.Field` on the context object leaves a resolver whose `Functions` is exactly the new function's reference |

## Left out

- The text of the VTL request and response templates (`print`, `printBlock`, `compoundExpression`, `qref`, `methodCall`, ...). They come from graphql-mapping-template and are opaque constants here.
- The definitions of `simplifyName`, `toUpper`, `ResolverResourceIDs.ResolverResourceID` and `GraphQLAPILogicalID` from graphql-transformer-common. They are uninterpreted fields of `Naming`.
- `valueFromASTUntyped` from graphql. The model takes argument values already converted. It covers only string and null, the values a `String` argument can hold.
- The GraphQL AST nodes `parent`, `definition` and `directive`. They are reduced to the type name, the field name and the directive's argument list.
- The `gql` directive declarations in the two constructors and the `Transformer` base class. These are host-owned schema handling.
- CloudFormation stack synthesis, deployment, and the order in which the host calls transformers. `Composition.ApplyDynamoDB` takes the order of the occurrences as given and stops at the first error, as a thrown exception would.
- DynamoDBTransformer.AppendFunctionToResolver: the source pushes onto the resolver object stored in the context and returns that same object. The model returns an updated value, which `Field` stores back under the resolver key. Aliasing of that object under other keys is not captured.
- cloudform-types' `Resource.dependsOn` is not part of this model. It is modelled as the setter that assigns `DependsOn`, so each call replaces the resolver's previous dependency. `AppendFunctionToResolver`, `PipelineAppendsFunction`, `OccurrencesExtendPipeline` and `PipelineThenOccurrences` state `dependsOn` on that reading. The references in `Functions` are dependencies too, through `Fn.GetAtt`, but they are not added to `dependsOn`.
- `toUpper` applied to a missing or null `table` is modelled as an error raised before any change (`TableNotAString`). What graphql-transformer-common actually does with a non-string is not part of this model.
- There is no separate lemma that equal arguments give equal IDs. `DynamoDBAppSyncFunctionConfigurationID` is a Dafny function of its arguments, so this holds by construction.
