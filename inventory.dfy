/** The host inventory handed to Ansible (AnsibleInventory): a top-level "all"
    group whose hosts carry JSON variables, with child groups derived from each
    host's osFamily and tags attributes. The lenient Gson parse is the abstract
    `parse`; None stands for a parse exception. */
module Inventory {
  import opened Base
  import opened Json

  /** Attribute names Ansible reserves; they are dropped before a host is added. */
  const Reserved: seq<string> := ["hostvars", "group_names", "groups", "environment"]

  /** The attributes whose comma-separated values name the host's groups. */
  const GroupingKeys: seq<string> := ["osFamily", "tags"]

  const AnsibleHost: string := "ansible_host"

  /** The parse-then-reject-primitive rule: a value is stored as parsed only
      when it parses to an object, an array or null; otherwise the original
      string is stored verbatim. */
  function HostVarValue(parse: string -> Option<Json>, raw: string): (j: Json)
    ensures j.IsPrimitive() ==> j == JString(raw)
    ensures !j.IsPrimitive() ==> parse(raw) == Some(j)
    ensures parse(raw).None? ==> j == JString(raw)
  {
    match parse(raw)
    case None => JString(raw)
    case Some(parsed) => if parsed.IsPrimitive() then JString(raw) else parsed
  }

  /** The JSON variables of a host, one per attribute. */
  function HostVars(parse: string -> Option<Json>, attributes: map<string, string>): (r: map<string, Json>)
    ensures r.Keys == attributes.Keys
    ensures forall k :: k in r && r[k].IsPrimitive() ==> r[k] == JString(attributes[k])
    ensures forall k :: k in r && !r[k].IsPrimitive() ==> parse(attributes[k]) == Some(r[k])
  {
    map k | k in attributes :: HostVarValue(parse, attributes[k])
  }

  /** The caller's attributes after the reserved names are removed. */
  function WithoutReserved(attributes: map<string, string>): map<string, string> {
    attributes - set r | r in Reserved
  }

  /** The caller's attributes as they end up after the outer addHost. */
  function FinalAttributes(attributes: map<string, string>, host: string): map<string, string> {
    WithoutReserved(attributes)[AnsibleHost := host]
  }

  /** The host is described by exactly the caller's attributes minus the reserved
      ones plus ansible_host, which holds the given address whatever the caller
      had under that name; every other value follows the parse rule. */
  lemma HostVarsShape(parse: string -> Option<Json>, attributes: map<string, string>, host: string)
    ensures var vars := HostVars(parse, FinalAttributes(attributes, host));
            vars.Keys == (attributes.Keys - set r | r in Reserved) + {AnsibleHost} &&
            (forall i :: 0 <= i < |Reserved| ==> Reserved[i] !in vars) &&
            FinalAttributes(attributes, host)[AnsibleHost] == host &&
            vars[AnsibleHost] == HostVarValue(parse, host) &&
            (forall k :: k in attributes && k != AnsibleHost && k !in Reserved ==>
               vars[k] == HostVarValue(parse, attributes[k]))
  {
  }

  /** A comma-separated value with no JSON structure, such as "a,b,c", stays the
      original string whenever parsing does not produce an object, array or null. */
  lemma PrimitiveParseKeepsRawText(parse: string -> Option<Json>, raw: string)
    requires parse(raw).None? || parse(raw).value.IsPrimitive()
    ensures HostVarValue(parse, raw) == JString(raw)
    ensures AsString(HostVarValue(parse, raw)) == Some(raw)
  {
  }

  /** The group names one attribute value contributes: lower-cased, split on
      commas (trailing empty pieces dropped) and trimmed. */
  function GroupNamesOf(value: string): (r: seq<string>)
    ensures |r| == |JavaSplit(ToLower(value), ',')|
    ensures forall i :: 0 <= i < |r| ==> r[i] == Trim(JavaSplit(ToLower(value), ',')[i])
  {
    var pieces := JavaSplit(ToLower(value), ',');
    seq(|pieces|, i requires 0 <= i < |pieces| => Trim(pieces[i]))
  }

  /** Every group name the osFamily and tags attributes contribute, in order. */
  function GroupNames(attributes: map<string, string>): (r: seq<string>)
    ensures "osFamily" !in attributes && "tags" !in attributes ==> r == []
    ensures "osFamily" in attributes ==> GroupNamesOf(attributes["osFamily"]) <= r
    ensures "tags" in attributes ==>
              |GroupNamesOf(attributes["tags"])| <= |r| &&
              r[|r| - |GroupNamesOf(attributes["tags"])|..] == GroupNamesOf(attributes["tags"])
    ensures "osFamily" !in attributes ==> r == (if "tags" in attributes then GroupNamesOf(attributes["tags"]) else [])
    ensures "tags" !in attributes ==> r == (if "osFamily" in attributes then GroupNamesOf(attributes["osFamily"]) else [])
  {
    (if "osFamily" in attributes then GroupNamesOf(attributes["osFamily"]) else [])
    + (if "tags" in attributes then GroupNamesOf(attributes["tags"]) else [])
  }

  /** Group names never carry surrounding blanks, and a value without commas
      names exactly one group. */
  lemma GroupNamesAreTrimmed(value: string)
    ensures forall i :: 0 <= i < |GroupNamesOf(value)| ==>
              |GroupNamesOf(value)[i]| > 0 ==> GroupNamesOf(value)[i][0] > ' '
    ensures ',' !in value ==> GroupNamesOf(value) == [Trim(ToLower(value))]
  {
    if ',' !in value {
      forall i | 0 <= i < |value|
        ensures ToLower(value)[i] != ','
      {
        assert LowerChar(value[i]) != ',';
      }
    }
  }

  /** Removing the reserved names and setting ansible_host never changes the
      groups: they come from the caller's own osFamily and tags values. */
  lemma GroupsFromCallerAttributes(attributes: map<string, string>, host: string)
    ensures GroupNames(FinalAttributes(attributes, host)) == GroupNames(attributes)
  {
    var f := FinalAttributes(attributes, host);
    assert "osFamily" !in Reserved && "tags" !in Reserved;
    assert ("osFamily" in f <==> "osFamily" in attributes) && ("tags" in f <==> "tags" in attributes);
  }

  /** A caller-owned attribute map, changed in place by addHost. */
  class Attributes {
    var entries: map<string, string>

    constructor (entries: map<string, string>)
      ensures this.entries == entries
    {
      this.entries := entries;
    }
  }

  /** A child group (an AnsibleInventoryHosts reached through its parent's
      children map). Child groups are created once, by name, and never escape
      their parent, so they are values here; the top-level group is an object. */
  datatype HostGroup = HostGroup(hosts: map<string, map<string, Json>>)

  /** addHost(nodeName) on a child group: the host is (re)entered with no variables. */
  function WithHostName(g: HostGroup, nodeName: string): (r: HostGroup)
    ensures r.hosts.Keys == g.hosts.Keys + {nodeName} && r.hosts[nodeName] == map[]
    ensures forall h :: h in g.hosts && h != nodeName ==> r.hosts[h] == g.hosts[h]
  {
    HostGroup(g.hosts[nodeName := map[]])
  }

  /** AnsibleInventoryHosts: the hosts of a group with their variables, and its
      child groups by name. */
  class InventoryHosts {
    var hosts: map<string, map<string, Json>>
    var children: map<string, HostGroup>

    constructor ()
      ensures hosts == map[] && children == map[]
    {
      hosts := map[];
      children := map[];
    }

    /** addHost(nodeName): the host is (re)entered with no variables. */
    method AddHostName(nodeName: string)
      modifies this
      ensures hosts == old(hosts)[nodeName := map[]] && children == old(children)
    {
      hosts := hosts[nodeName := map[]];
    }

    /** addHost(nodeName, host, attributes): sets ansible_host in the caller's map,
        then stores every attribute under the parse rule, replacing any previous
        entry for the node. */
    method AddHost(nodeName: string, host: string, attributes: Attributes, parse: string -> Option<Json>)
      modifies this, attributes
      ensures attributes.entries == old(attributes.entries)[AnsibleHost := host]
      ensures hosts == old(hosts)[nodeName := HostVars(parse, attributes.entries)]
      ensures children == old(children)
    {
      attributes.entries := attributes.entries[AnsibleHost := host];
      var attrs := attributes.entries;
      var attributesJson: map<string, Json> := map[];
      var remaining := attrs.Keys;
      while remaining != {}
        invariant remaining <= attrs.Keys && attributes.entries == attrs
        invariant attributesJson == map k | k in attrs.Keys - remaining :: HostVarValue(parse, attrs[k])
        decreases remaining
      {
        var attribute :| attribute in remaining;
        attributesJson := attributesJson[attribute := HostVarValue(parse, attrs[attribute])];
        remaining := remaining - {attribute};
      }
      assert attrs.Keys - remaining == attrs.Keys;
      hosts := hosts[nodeName := attributesJson];
    }

    /** getOrAddChildHostGroup: the existing child of that name, untouched, or a
        new empty one that is entered under the name. */
    method GetOrAddChildHostGroup(groupName: string) returns (g: HostGroup)
      modifies this
      ensures hosts == old(hosts)
      ensures groupName in old(children) ==> g == old(children)[groupName] && children == old(children)
      ensures groupName !in old(children) ==> g == HostGroup(map[]) && children == old(children)[groupName := g]
    {
      if groupName !in children {
        children := children[groupName := HostGroup(map[])];
      }
      g := children[groupName];
    }

    /** getOrAddChildHostGroup(groupName).addHost(nodeName): the child's update is
        written back under its name, as the shared reference makes it in place. */
    method AddToChild(groupName: string, nodeName: string)
      modifies this
      ensures hosts == old(hosts)
      ensures children == old(children)[groupName :=
                WithHostName(if groupName in old(children) then old(children)[groupName] else HostGroup(map[]), nodeName)]
    {
      var child := GetOrAddChildHostGroup(groupName);
      children := children[groupName := WithHostName(child, nodeName)];
    }
  }

  /** The child groups after the node joins the group of every name, in order. */
  function JoinGroups(children: map<string, HostGroup>, groups: seq<string>, nodeName: string): (r: map<string, HostGroup>)
    ensures children.Keys <= r.Keys
    ensures forall j :: 0 <= j < |groups| ==> groups[j] in r
    decreases |groups|
  {
    if groups == [] then children
    else
      var last := groups[|groups| - 1];
      var before := JoinGroups(children, groups[..|groups| - 1], nodeName);
      assert forall j :: 0 <= j < |groups| - 1 ==> groups[j] == groups[..|groups| - 1][j];
      before[last := WithHostName(if last in before then before[last] else HostGroup(map[]), nodeName)]
  }

  /** Joining groups adds exactly the named groups. */
  lemma {:induction false} JoinGroupsKeys(children: map<string, HostGroup>, groups: seq<string>, nodeName: string)
    ensures JoinGroups(children, groups, nodeName).Keys == children.Keys + (set j | 0 <= j < |groups| :: groups[j])
    decreases |groups|
  {
    if groups != [] {
      var init := groups[..|groups| - 1];
      JoinGroupsKeys(children, init, nodeName);
      assert (set j | 0 <= j < |groups| :: groups[j]) == (set j | 0 <= j < |init| :: init[j]) + {groups[|groups| - 1]};
    }
  }

  /** The node is in every named group, with no variables. */
  lemma {:induction false} JoinGroupsMembers(children: map<string, HostGroup>, groups: seq<string>, nodeName: string, j: nat)
    requires j < |groups|
    ensures groups[j] in JoinGroups(children, groups, nodeName)
    ensures var g := JoinGroups(children, groups, nodeName)[groups[j]];
            nodeName in g.hosts && g.hosts[nodeName] == map[]
    decreases |groups|
  {
    var init := groups[..|groups| - 1];
    if j < |init| {
      assert groups[j] == init[j];
      JoinGroupsMembers(children, init, nodeName, j);
    }
  }

  /** Every existing group keeps every other host it had. */
  lemma {:induction false} JoinGroupsKeepOthers(children: map<string, HostGroup>, groups: seq<string>, nodeName: string,
                                                name: string)
    requires name in children
    ensures name in JoinGroups(children, groups, nodeName)
    ensures KeepsOtherHosts(children[name].hosts, JoinGroups(children, groups, nodeName)[name].hosts, nodeName)
    decreases |groups|
  {
    if groups != [] {
      JoinGroupsKeepOthers(children, groups[..|groups| - 1], nodeName, name);
    }
  }

  /** A group that did not exist before holds the node and nothing else. */
  lemma {:induction false} JoinGroupsNewGroups(children: map<string, HostGroup>, groups: seq<string>, nodeName: string,
                                               name: string)
    requires name in JoinGroups(children, groups, nodeName) && name !in children
    ensures JoinGroups(children, groups, nodeName)[name].hosts.Keys == {nodeName}
    decreases |groups|
  {
    var init := groups[..|groups| - 1];
    var before := JoinGroups(children, init, nodeName);
    if name in before {
      JoinGroupsNewGroups(children, init, nodeName, name);
    }
  }

  /** Joining groups adds exactly the named groups, puts the node in each of them
      with no variables, and keeps every other member of every existing group. */
  lemma JoinGroupsSpec(children: map<string, HostGroup>, groups: seq<string>, nodeName: string)
    ensures var r := JoinGroups(children, groups, nodeName);
            r.Keys == children.Keys + (set j | 0 <= j < |groups| :: groups[j]) &&
            (forall j :: 0 <= j < |groups| ==> nodeName in r[groups[j]].hosts && r[groups[j]].hosts[nodeName] == map[]) &&
            (forall name :: name in children ==> KeepsOtherHosts(children[name].hosts, r[name].hosts, nodeName)) &&
            (forall name :: name in r && name !in children ==> r[name].hosts.Keys == {nodeName})
  {
    JoinGroupsKeys(children, groups, nodeName);
    forall j | 0 <= j < |groups|
      ensures var g := JoinGroups(children, groups, nodeName)[groups[j]];
              nodeName in g.hosts && g.hosts[nodeName] == map[]
    {
      JoinGroupsMembers(children, groups, nodeName, j);
    }
    forall name | name in children
      ensures KeepsOtherHosts(children[name].hosts, JoinGroups(children, groups, nodeName)[name].hosts, nodeName)
    {
      JoinGroupsKeepOthers(children, groups, nodeName, name);
    }
    forall name | name in JoinGroups(children, groups, nodeName) && name !in children
      ensures JoinGroups(children, groups, nodeName)[name].hosts.Keys == {nodeName}
    {
      JoinGroupsNewGroups(children, groups, nodeName, name);
    }
  }

  /** A group's hosts after a step that may only (re)enter `nodeName`: every
      other host keeps its entry. */
  predicate KeepsOtherHosts(before: map<string, map<string, Json>>, after: map<string, map<string, Json>>,
                            nodeName: string) {
    before.Keys <= after.Keys && forall h :: h in before && h != nodeName ==> after[h] == before[h]
  }

  /** AnsibleInventory: the "all" group. */
  class AnsibleInventory {
    const all: InventoryHosts

    constructor ()
      ensures fresh(all) && all.hosts == map[] && all.children == map[]
    {
      all := new InventoryHosts();
    }

    /** addHost: removes the reserved names from the caller's map, adds the host
        to "all", then adds it (with no variables) to the child group named by
        each piece of its osFamily and tags values. */
    method AddHost(nodeName: string, host: string, attributes: Attributes, parse: string -> Option<Json>)
      modifies all, attributes
      ensures attributes.entries == FinalAttributes(old(attributes.entries), host)
      ensures all.hosts == old(all.hosts)[nodeName := HostVars(parse, attributes.entries)]
      ensures all.children == JoinGroups(old(all.children), GroupNames(attributes.entries), nodeName)
    {
      var i := 0;
      while i < |Reserved|
        invariant 0 <= i <= |Reserved|
        invariant attributes.entries == old(attributes.entries) - set j | 0 <= j < i :: Reserved[j]
        modifies attributes
      {
        attributes.entries := attributes.entries - {Reserved[i]};
        i := i + 1;
      }
      assert (set j | 0 <= j < |Reserved| :: Reserved[j]) == set r | r in Reserved;
      all.AddHost(nodeName, host, attributes, parse);
      AddToGroups(GroupNames(attributes.entries), nodeName);
    }

    /** The grouping loop over the osFamily and tags pieces. */
    method AddToGroups(groups: seq<string>, nodeName: string)
      modifies all
      ensures all.hosts == old(all.hosts)
      ensures all.children == JoinGroups(old(all.children), groups, nodeName)
    {
      var k := 0;
      while k < |groups|
        invariant 0 <= k <= |groups|
        invariant all.hosts == old(all.hosts)
        invariant all.children == JoinGroups(old(all.children), groups[..k], nodeName)
      {
        assert groups[..k + 1][..k] == groups[..k];
        all.AddToChild(groups[k], nodeName);
        k := k + 1;
      }
      assert groups[..|groups|] == groups;
    }
  }
}
