/** Layered property resolution (PropertyResolver, whose source is not part of
    this model). The order of the layers is an assumption stated here once:
    the job configuration, then the node's attributes (only when exactly one
    node is in scope), then the project property "project.<key>", then the
    framework property "framework.<key>", then the caller's default. */
module Resolver {
  import opened Base
  import K = Describable

  /** A node of the host platform (INodeEntry), consulted read-only. */
  datatype Node = Node(nodename: string, hostname: string, attributes: map<string, string>)

  /** Project-scoped and framework-scoped properties. */
  datatype Scopes = Scopes(projectProps: map<string, string>, frameworkProps: map<string, string>)

  function Lookup(m: map<string, string>, key: string): Option<string> {
    if key in m then Some(m[key]) else None
  }

  /** The first present candidate, or the default when none is present. */
  function FirstPresent(candidates: seq<Option<string>>, default: Option<string>): (r: Option<string>)
    ensures (forall i :: 0 <= i < |candidates| ==> candidates[i].None?) ==> r == default
    ensures forall i :: (0 <= i < |candidates| && candidates[i].Some? &&
                         (forall j :: 0 <= j < i ==> candidates[j].None?)) ==> r == candidates[i]
  {
    if |candidates| == 0 then default
    else if candidates[0].Some? then candidates[0]
    else FirstPresent(candidates[1..], default)
  }

  /** The four layers of a lookup, highest priority first. */
  function Layers(key: string, scopes: Scopes, node: Option<Node>, jobConf: map<string, string>): seq<Option<string>> {
    [Lookup(jobConf, key),
     if node.Some? then Lookup(node.value.attributes, key) else None,
     Lookup(scopes.projectProps, K.ProjectPropPrefix + key),
     Lookup(scopes.frameworkProps, K.FrameworkPropPrefix + key)]
  }

  /** PropertyResolver.resolveProperty(key, default, project, framework, node, jobConf). */
  function ResolveProperty(key: string, default: Option<string>, scopes: Scopes,
                           node: Option<Node>, jobConf: map<string, string>): Option<string> {
    if key in jobConf then Some(jobConf[key])
    else if node.Some? && key in node.value.attributes then Some(node.value.attributes[key])
    else if K.ProjectPropPrefix + key in scopes.projectProps then Some(scopes.projectProps[K.ProjectPropPrefix + key])
    else if K.FrameworkPropPrefix + key in scopes.frameworkProps then Some(scopes.frameworkProps[K.FrameworkPropPrefix + key])
    else default
  }

  /** resolveProperty answers with the first layer that holds the key (so a
      layer beats every layer after it), and with the default only when none does. */
  lemma ResolvePropertyIsFirstLayer(key: string, default: Option<string>, scopes: Scopes,
                                    node: Option<Node>, jobConf: map<string, string>)
    ensures ResolveProperty(key, default, scopes, node, jobConf)
         == FirstPresent(Layers(key, scopes, node, jobConf), default)
  {
    var layers := Layers(key, scopes, node, jobConf);
    assert layers[1..][1..][1..] == [layers[3]];
    assert FirstPresent(layers[1..][1..][1..][1..], default) == default;
    assert FirstPresent(layers[1..][1..][1..], default) == if layers[3].Some? then layers[3] else default;
    assert FirstPresent(layers[1..][1..], default) == if layers[2].Some? then layers[2] else FirstPresent(layers[1..][1..][1..], default);
    assert FirstPresent(layers[1..], default) == if layers[1].Some? then layers[1] else FirstPresent(layers[1..][1..], default);
  }

  /** PropertyResolver.resolveBooleanProperty: the default when nothing is
      configured, otherwise whether the configured value is exactly "true". */
  function ResolveBooleanProperty(key: string, default: bool, scopes: Scopes,
                                  node: Option<Node>, jobConf: map<string, string>): (r: bool)
    ensures ResolveProperty(key, None, scopes, node, jobConf).None? ==> r == default
    ensures ResolveProperty(key, None, scopes, node, jobConf) == Some("true") ==> r
    ensures (ResolveProperty(key, None, scopes, node, jobConf).Some? &&
             ResolveProperty(key, None, scopes, node, jobConf) != Some("true")) ==> !r
  {
    match ResolveProperty(key, None, scopes, node, jobConf)
    case None => default
    case Some(v) => v == "true"
  }

  /** PropertyResolver.evaluateSecureOption: the value of the named option in the
      private (secure) data context, when present and not empty. */
  function EvaluateSecureOption(optionName: string, secureOptions: map<string, string>): (r: Option<string>)
    ensures r.Some? <==> optionName in secureOptions && secureOptions[optionName] != ""
    ensures r.Some? ==> r.value == secureOptions[optionName]
  {
    if optionName in secureOptions && secureOptions[optionName] != "" then Some(secureOptions[optionName])
    else None
  }

  /** A job-level value beats every other layer, whatever they hold. */
  lemma JobLevelWins(key: string, default: Option<string>, scopes: Scopes, scopes': Scopes,
                     node: Option<Node>, node': Option<Node>, jobConf: map<string, string>)
    requires key in jobConf
    ensures ResolveProperty(key, default, scopes, node, jobConf)
         == ResolveProperty(key, default, scopes', node', jobConf)
         == Some(jobConf[key])
  {
  }
}
