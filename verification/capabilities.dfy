/** The capability assembler: two booleans become the optional capability
    fields the server advertises, each with fixed sub-flags. */
module Capabilities {
  import opened Wrappers

  /** Resource support; neither subscriptions nor list-changed notifications. */
  datatype ResourcesCapability = ResourcesCapability(subscribe: bool, listChanged: bool)

  /** Tool support; no list-changed notifications. */
  datatype ToolsCapability = ToolsCapability(listChanged: bool)

  /** The capability descriptor; an absent field means "not supported". */
  datatype ServerCapabilities = ServerCapabilities(resources: Option<ResourcesCapability>, tools: Option<ToolsCapability>)

  /** `CapabilitiesBuilder.build(hasTools:hasResources:)`. */
  function Build(hasTools: bool, hasResources: bool): (c: ServerCapabilities)
    ensures c.resources.Some? <==> hasResources
    ensures c.resources.Some? ==> !c.resources.value.subscribe && !c.resources.value.listChanged
    ensures c.tools.Some? <==> hasTools
    ensures c.tools.Some? ==> !c.tools.value.listChanged
  {
    ServerCapabilities(
      if hasResources then Some(ResourcesCapability(false, false)) else None,
      if hasTools then Some(ToolsCapability(false)) else None)
  }

  /** Which of the two capabilities a descriptor advertises, as (tools, resources). */
  function Advertised(c: ServerCapabilities): (bool, bool)
  {
    (c.tools.Some?, c.resources.Some?)
  }

  /** The flags can be read back from the descriptor, so distinct flags give
      distinct descriptors. */
  lemma BuildAdvertisesFlags(hasTools: bool, hasResources: bool)
    ensures Advertised(Build(hasTools, hasResources)) == (hasTools, hasResources)
  {
  }

  /** Each field depends on its own flag only. */
  lemma BuildFieldsIndependent(hasTools: bool, hasResources: bool, otherTools: bool, otherResources: bool)
    ensures Build(hasTools, hasResources).tools == Build(hasTools, otherResources).tools
    ensures Build(hasTools, hasResources).resources == Build(otherTools, hasResources).resources
  {
  }

  /** With both flags off, nothing is advertised. */
  lemma BuildNothing()
    ensures Build(false, false) == ServerCapabilities(None, None)
  {
  }
}
