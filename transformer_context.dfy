/** The part of the host's `TransformerContext` the handlers use. */
module Context {
  import opened Wrappers
  import opened Resources

  class TransformerContext {
    /** The template's resources, by logical ID. */
    var resources: map<string, Resource>
    /** The stack each resource is mapped to, by logical ID. */
    var stackOf: map<string, string>

    constructor (resources: map<string, Resource>, stackOf: map<string, string>)
      ensures this.resources == resources && this.stackOf == stackOf
    {
      this.resources := resources;
      this.stackOf := stackOf;
    }

    /** The two tables as one value. */
    function State(): Tables
      reads this
    {
      Tables(resources, stackOf)
    }

    /** `getResource(id)`: the resource stored under `id`, if any. */
    function GetResource(id: string): (r: Option<Resource>)
      reads this
      ensures r.Some? <==> id in resources
      ensures r.Some? ==> r.value == resources[id]
    {
      if id in resources then Some(resources[id]) else None
    }

    /** `setResource(id, r)`: stores `r` under `id`, replacing what was there. */
    method SetResource(id: string, r: Resource)
      modifies this
      ensures resources == old(resources)[id := r]
      ensures stackOf == old(stackOf)
    {
      resources := resources[id := r];
    }

    /** `mapResourceToStack(stack, id)`: records that `id` lives in `stack`. */
    method MapResourceToStack(stack: string, id: string)
      modifies this
      ensures stackOf == old(stackOf)[id := stack]
      ensures resources == old(resources)
    {
      stackOf := stackOf[id := stack];
    }
  }
}
