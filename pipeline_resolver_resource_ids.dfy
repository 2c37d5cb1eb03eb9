/** Logical IDs of the pipeline functions the `@dynamodb` handler creates. */
module PipelineResolverResourceIDs {
  import opened Resources

  /**
   * The ID of the function configuration for directive `name` on
   * `typeName.fieldName`. Note that the type comes first in the ID although
   * the field comes first among the parameters.
   */
  function DynamoDBAppSyncFunctionConfigurationID(n: Naming, fieldName: string, typeName: string, name: string): (id: string)
    ensures |id| == |n.simplifyName(typeName)| + |n.simplifyName(fieldName)| + |n.simplifyName(name)| + 8
    ensures id[..|n.simplifyName(typeName)|] == n.simplifyName(typeName)
    ensures id[|n.simplifyName(typeName)|..|n.simplifyName(typeName)| + |n.simplifyName(fieldName)|] == n.simplifyName(fieldName)
    ensures id[|n.simplifyName(typeName)| + |n.simplifyName(fieldName)|..|n.simplifyName(typeName)| + |n.simplifyName(fieldName)| + |n.simplifyName(name)|]
            == n.simplifyName(name)
    ensures id[|id| - 8..] == "Function"
  {
    n.simplifyName(typeName) + n.simplifyName(fieldName) + n.simplifyName(name) + "Function"
  }

  /**
   * A function ID never coincides with a resolver key that ends in
   * "Resolver", so storing the function never overwrites such a resolver.
   */
  lemma FunctionIdIsNotResolverKey(n: Naming, fieldName: string, typeName: string, name: string, key: string)
    requires |key| >= 8 && key[|key| - 8..] == "Resolver"
    ensures DynamoDBAppSyncFunctionConfigurationID(n, fieldName, typeName, name) != key
  {
    var id := DynamoDBAppSyncFunctionConfigurationID(n, fieldName, typeName, name);
    assert id[|id| - 1] == 'n' && key[|key| - 1] == 'r' by {
      assert id[|id| - 8..][7] == 'n';
      assert key[|key| - 8..][7] == 'r';
    }
  }
}
