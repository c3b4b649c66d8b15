/** The relation graph of `DataAggregator.generate_network_graph`
    (backend/modules/data_aggregator.py): a directed graph whose centre is the
    person, with one edge from the person to every profile, username, e-mail
    address, organization and location of the aggregated record. Only the
    node and edge sets are modelled; the drawing is not. */
module NetworkGraph {
  import opened Wrappers
  import opened Text
  import DataAggregator

  type PersonData = DataAggregator.PersonData
  type Profile = DataAggregator.Profile
  type ProfileMap = DataAggregator.ProfileMap
  type EmailRecord = DataAggregator.EmailRecord

  /** The `type` attribute of a node; `Bare` is a node `add_edge` created
      without attributes. */
  datatype NodeKind = Person | ProfileNode | UsernameNode | EmailNode | OrganizationNode | LocationNode | Bare

  /** The `color` attribute that goes with each type (gray is the drawing's
      default for a node without one). */
  function Color(kind: NodeKind): string {
    match kind
    case Person => "red"
    case ProfileNode => "blue"
    case UsernameNode => "green"
    case EmailNode => "purple"
    case OrganizationNode => "orange"
    case LocationNode => "yellow"
    case Bare => "gray"
  }

  /** The attributes of a node: its type and, for profiles, a label (the field `tag`). */
  datatype NodeInfo = NodeInfo(kind: NodeKind, tag: Option<string>)

  type Nodes = map<string, NodeInfo>

  /** `G.add_node(id, type=kind[, label=...])`: a new node gets the
      attributes; an existing node keeps its place and has its type replaced,
      and keeps its label when no new one is given. */
  function WithNode(nodes: Nodes, id: string, kind: NodeKind, tag: Option<string>): Nodes {
    var kept := if tag.Some? then tag else if id in nodes then nodes[id].tag else None;
    nodes[id := NodeInfo(kind, kept)]
  }

  /** The node `add_edge` adds for an endpoint that is not yet in the graph. */
  function WithBare(nodes: Nodes, id: string): Nodes {
    if id in nodes then nodes else nodes[id := NodeInfo(Bare, None)]
  }

  /** A `networkx.DiGraph` reduced to its nodes with their attributes and
      its edges. */
  class Graph {
    var nodes: Nodes
    var edges: set<(string, string)>

    /** `nx.DiGraph()`. */
    constructor ()
      ensures nodes == map[] && edges == {}
    {
      nodes := map[];
      edges := {};
    }

    /** `G.add_node(id, ...)`. */
    method AddNode(id: string, kind: NodeKind, tag: Option<string>)
      modifies this
      ensures nodes == WithNode(old(nodes), id, kind, tag) && edges == old(edges)
    {
      nodes := WithNode(nodes, id, kind, tag);
    }

    /** `G.add_edge(u, v)`: both endpoints become nodes. */
    method AddEdge(u: string, v: string)
      modifies this
      ensures nodes == WithBare(WithBare(old(nodes), u), v) && edges == old(edges) + {(u, v)}
    {
      nodes := WithBare(WithBare(nodes, u), v);
      edges := edges + {(u, v)};
    }
  }

  // ---------------------------------------------------------------------------
  // The nodes the person is linked to
  // ---------------------------------------------------------------------------

  /** One node to add and link to the person. */
  datatype Addition = Addition(id: string, kind: NodeKind, tag: Option<string>)

  /** The node id of the `i`-th profile of a platform. */
  function ProfileId(platform: string, i: nat): string {
    platform + "_" + IntToString(i)
  }

  /** The profile nodes of one platform, numbered from 0 and labelled with
      the profile's name, or the platform when the profile has none. */
  function PlatformAdditions(platform: string, ps: seq<Profile>): (adds: seq<Addition>)
    ensures |adds| == |ps|
  {
    if ps == [] then []
    else
      var i := |ps| - 1;
      PlatformAdditions(platform, ps[..i]) + [Addition(ProfileId(platform, i), ProfileNode, Some(ps[i].name.GetOr(platform)))]
  }

  /** The profile nodes of every platform, in the order of the map. */
  function ProfileAdditions(entries: ProfileMap): seq<Addition> {
    if entries == [] then []
    else
      var e := entries[|entries| - 1];
      ProfileAdditions(entries[..|entries| - 1]) + PlatformAdditions(e.0, e.1)
  }

  /** One node of the same type for every value, in order. */
  function KindAdditions(ids: seq<string>, kind: NodeKind): (adds: seq<Addition>)
    ensures |adds| == |ids|
  {
    if ids == [] then [] else KindAdditions(ids[..|ids| - 1], kind) + [Addition(ids[|ids| - 1], kind, None)]
  }

  /** One e-mail node for every record with a non-empty address. */
  function EmailAdditions(emails: seq<EmailRecord>): seq<Addition> {
    if emails == [] then []
    else
      var address := emails[|emails| - 1].address;
      EmailAdditions(emails[..|emails| - 1]) + (if address != "" then [Addition(address, EmailNode, None)] else [])
  }

  /** Every node linked to the person, in the order they are added. */
  function GraphAdditions(p: PersonData): seq<Addition> {
    ProfileAdditions(p.socialProfiles) + KindAdditions(p.possibleUsernames, UsernameNode) +
    EmailAdditions(p.emails) + KindAdditions(p.organizations, OrganizationNode) +
    KindAdditions(p.locations, LocationNode)
  }

  // ---------------------------------------------------------------------------
  // The graph as a function of the record
  // ---------------------------------------------------------------------------

  /** One addition: `add_node(a.id, ...)` then `add_edge(name, a.id)`. */
  function Link(nodes: Nodes, name: string, a: Addition): Nodes {
    WithBare(WithBare(WithNode(nodes, a.id, a.kind, a.tag), name), a.id)
  }

  function LinkAll(nodes: Nodes, name: string, adds: seq<Addition>): Nodes {
    if adds == [] then nodes else Link(LinkAll(nodes, name, adds[..|adds| - 1]), name, adds[|adds| - 1])
  }

  /** The edges from `name` to every added node. */
  function Spokes(name: string, adds: seq<Addition>): set<(string, string)> {
    if adds == [] then {} else Spokes(name, adds[..|adds| - 1]) + {(name, adds[|adds| - 1].id)}
  }

  /** The ids of the added nodes. */
  function Ids(adds: seq<Addition>): set<string> {
    if adds == [] then {} else Ids(adds[..|adds| - 1]) + {adds[|adds| - 1].id}
  }

  /** The ids of the added nodes of one type. */
  function KindIds(adds: seq<Addition>, kind: NodeKind): set<string> {
    if adds == [] then {}
    else KindIds(adds[..|adds| - 1], kind) + (if adds[|adds| - 1].kind == kind then {adds[|adds| - 1].id} else {})
  }

  /** The graph starts with the person alone. */
  function PersonNode(name: string): Nodes {
    map[name := NodeInfo(Person, None)]
  }

  /** The nodes of the graph of `p`: the person and the added nodes. */
  function GraphNodes(p: PersonData): (nodes: Nodes)
    ensures nodes.Keys == {p.name} + Ids(GraphAdditions(p))
  {
    LinkAllKeys(PersonNode(p.name), p.name, GraphAdditions(p));
    LinkAll(PersonNode(p.name), p.name, GraphAdditions(p))
  }

  /** The edges of the graph of `p`: each leaves the person for an added node. */
  function GraphEdges(p: PersonData): (edges: set<(string, string)>)
    ensures forall e :: e in edges ==> e.0 == p.name && e.1 in Ids(GraphAdditions(p))
  {
    var adds := GraphAdditions(p);
    assert forall e :: e in Spokes(p.name, adds) ==> e.0 == p.name && e.1 in Ids(adds) by {
      forall e | e in Spokes(p.name, adds)
        ensures e.0 == p.name && e.1 in Ids(adds)
      {
        SpokesMembers(p.name, adds, e.0, e.1);
      }
    }
    Spokes(p.name, adds)
  }

  lemma LinkAllSnoc(nodes: Nodes, name: string, adds: seq<Addition>, a: Addition)
    ensures LinkAll(nodes, name, adds + [a]) == Link(LinkAll(nodes, name, adds), name, a)
    ensures Spokes(name, adds + [a]) == Spokes(name, adds) + {(name, a.id)}
  {
    assert (adds + [a])[..|adds|] == adds;
  }

  lemma {:induction false} LinkAllAppend(nodes: Nodes, name: string, a: seq<Addition>, b: seq<Addition>)
    ensures LinkAll(nodes, name, a + b) == LinkAll(LinkAll(nodes, name, a), name, b)
  {
    if b != [] {
      var init := b[..|b| - 1];
      assert (a + b)[..|a + b| - 1] == a + init;
      LinkAllAppend(nodes, name, a, init);
    } else {
      assert a + b == a;
    }
  }

  lemma {:induction false} SpokesAppend(name: string, a: seq<Addition>, b: seq<Addition>)
    ensures Spokes(name, a + b) == Spokes(name, a) + Spokes(name, b)
  {
    if b != [] {
      var init := b[..|b| - 1];
      assert (a + b)[..|a + b| - 1] == a + init;
      SpokesAppend(name, a, init);
    } else {
      assert a + b == a;
    }
  }

  lemma {:induction false} IdsAppend(a: seq<Addition>, b: seq<Addition>)
    ensures Ids(a + b) == Ids(a) + Ids(b)
  {
    if b != [] {
      var init := b[..|b| - 1];
      assert (a + b)[..|a + b| - 1] == a + init;
      IdsAppend(a, init);
    } else {
      assert a + b == a;
    }
  }

  lemma {:induction false} KindIdsAppend(a: seq<Addition>, b: seq<Addition>, kind: NodeKind)
    ensures KindIds(a + b, kind) == KindIds(a, kind) + KindIds(b, kind)
  {
    if b != [] {
      var init := b[..|b| - 1];
      assert (a + b)[..|a + b| - 1] == a + init;
      KindIdsAppend(a, init, kind);
    } else {
      assert a + b == a;
    }
  }

  // ---------------------------------------------------------------------------
  // Building the graph
  // ---------------------------------------------------------------------------

  /** One addition made to the graph: the node, then the edge to it. */
  method LinkOne(g: Graph, name: string, a: Addition)
    modifies g
    ensures g.nodes == Link(old(g.nodes), name, a)
    ensures g.edges == old(g.edges) + {(name, a.id)}
  {
    g.AddNode(a.id, a.kind, a.tag);
    g.AddEdge(name, a.id);
  }

  /** The loop over one platform's profiles, numbered with `enumerate`. */
  method AddPlatformNodes(g: Graph, name: string, platform: string, ps: seq<Profile>)
    modifies g
    ensures g.nodes == LinkAll(old(g.nodes), name, PlatformAdditions(platform, ps))
    ensures g.edges == old(g.edges) + Spokes(name, PlatformAdditions(platform, ps))
  {
    for i := 0 to |ps|
      invariant g.nodes == LinkAll(old(g.nodes), name, PlatformAdditions(platform, ps[..i]))
      invariant g.edges == old(g.edges) + Spokes(name, PlatformAdditions(platform, ps[..i]))
    {
      ghost var before := PlatformAdditions(platform, ps[..i]);
      var a := Addition(ProfileId(platform, i), ProfileNode, Some(ps[i].name.GetOr(platform)));
      PlatformAdditionsSnoc(platform, ps, i);
      LinkAllSnoc(old(g.nodes), name, before, a);
      LinkOne(g, name, a);
    }
    assert ps[..|ps|] == ps;
  }

  lemma PlatformAdditionsSnoc(platform: string, ps: seq<Profile>, i: nat)
    requires i < |ps|
    ensures PlatformAdditions(platform, ps[..i + 1])
         == PlatformAdditions(platform, ps[..i]) + [Addition(ProfileId(platform, i), ProfileNode, Some(ps[i].name.GetOr(platform)))]
  {
    assert ps[..i + 1][..i] == ps[..i];
  }

  /** The loop over the platforms of the profile map. */
  method AddProfileNodes(g: Graph, name: string, entries: ProfileMap)
    modifies g
    ensures g.nodes == LinkAll(old(g.nodes), name, ProfileAdditions(entries))
    ensures g.edges == old(g.edges) + Spokes(name, ProfileAdditions(entries))
  {
    for k := 0 to |entries|
      invariant g.nodes == LinkAll(old(g.nodes), name, ProfileAdditions(entries[..k]))
      invariant g.edges == old(g.edges) + Spokes(name, ProfileAdditions(entries[..k]))
    {
      ghost var before := ProfileAdditions(entries[..k]);
      ghost var added := PlatformAdditions(entries[k].0, entries[k].1);
      ProfileAdditionsSnoc(entries, k);
      AddPlatformNodes(g, name, entries[k].0, entries[k].1);
      LinkAllAppend(old(g.nodes), name, before, added);
      SpokesAppend(name, before, added);
    }
    assert entries[..|entries|] == entries;
  }

  lemma ProfileAdditionsSnoc(entries: ProfileMap, k: nat)
    requires k < |entries|
    ensures ProfileAdditions(entries[..k + 1])
         == ProfileAdditions(entries[..k]) + PlatformAdditions(entries[k].0, entries[k].1)
  {
    assert entries[..k + 1][..k] == entries[..k];
  }

  /** The loops over usernames, organizations and locations: one node of the
      given type per value. */
  method AddKindNodes(g: Graph, name: string, ids: seq<string>, kind: NodeKind)
    modifies g
    ensures g.nodes == LinkAll(old(g.nodes), name, KindAdditions(ids, kind))
    ensures g.edges == old(g.edges) + Spokes(name, KindAdditions(ids, kind))
  {
    for i := 0 to |ids|
      invariant g.nodes == LinkAll(old(g.nodes), name, KindAdditions(ids[..i], kind))
      invariant g.edges == old(g.edges) + Spokes(name, KindAdditions(ids[..i], kind))
    {
      ghost var before := KindAdditions(ids[..i], kind);
      var a := Addition(ids[i], kind, None);
      KindAdditionsSnoc(ids, i, kind);
      LinkAllSnoc(old(g.nodes), name, before, a);
      LinkOne(g, name, a);
    }
    assert ids[..|ids|] == ids;
  }

  lemma KindAdditionsSnoc(ids: seq<string>, i: nat, kind: NodeKind)
    requires i < |ids|
    ensures KindAdditions(ids[..i + 1], kind) == KindAdditions(ids[..i], kind) + [Addition(ids[i], kind, None)]
  {
    assert ids[..i + 1][..i] == ids[..i];
  }

  /** The loop over e-mail records: records with an empty address are skipped. */
  method AddEmailNodes(g: Graph, name: string, emails: seq<EmailRecord>)
    modifies g
    ensures g.nodes == LinkAll(old(g.nodes), name, EmailAdditions(emails))
    ensures g.edges == old(g.edges) + Spokes(name, EmailAdditions(emails))
  {
    for i := 0 to |emails|
      invariant g.nodes == LinkAll(old(g.nodes), name, EmailAdditions(emails[..i]))
      invariant g.edges == old(g.edges) + Spokes(name, EmailAdditions(emails[..i]))
    {
      assert emails[..i + 1][..i] == emails[..i];
      ghost var before := EmailAdditions(emails[..i]);
      var address := emails[i].address;
      if address != "" {
        var a := Addition(address, EmailNode, None);
        assert EmailAdditions(emails[..i + 1]) == before + [a];
        LinkAllSnoc(old(g.nodes), name, before, a);
        LinkOne(g, name, a);
      } else {
        assert EmailAdditions(emails[..i + 1]) == before + [];
        assert before + [] == before;
      }
    }
    assert emails[..|emails|] == emails;
  }

  /** The graph of the record, one loop of the source at a time. */
  lemma GraphInParts(p: PersonData)
    ensures var n0 := PersonNode(p.name);
      GraphNodes(p) ==
        LinkAll(LinkAll(LinkAll(LinkAll(LinkAll(n0, p.name, ProfileAdditions(p.socialProfiles)), p.name,
          KindAdditions(p.possibleUsernames, UsernameNode)), p.name, EmailAdditions(p.emails)), p.name,
          KindAdditions(p.organizations, OrganizationNode)), p.name, KindAdditions(p.locations, LocationNode))
    ensures GraphEdges(p) ==
      Spokes(p.name, ProfileAdditions(p.socialProfiles)) + Spokes(p.name, KindAdditions(p.possibleUsernames, UsernameNode)) +
      Spokes(p.name, EmailAdditions(p.emails)) + Spokes(p.name, KindAdditions(p.organizations, OrganizationNode)) +
      Spokes(p.name, KindAdditions(p.locations, LocationNode))
  {
    var n0 := PersonNode(p.name);
    var a1 := ProfileAdditions(p.socialProfiles);
    var a2 := KindAdditions(p.possibleUsernames, UsernameNode);
    var a3 := EmailAdditions(p.emails);
    var a4 := KindAdditions(p.organizations, OrganizationNode);
    var a5 := KindAdditions(p.locations, LocationNode);
    LinkAllAppend(n0, p.name, a1, a2);
    LinkAllAppend(n0, p.name, a1 + a2, a3);
    LinkAllAppend(n0, p.name, a1 + a2 + a3, a4);
    LinkAllAppend(n0, p.name, a1 + a2 + a3 + a4, a5);
    SpokesAppend(p.name, a1, a2);
    SpokesAppend(p.name, a1 + a2, a3);
    SpokesAppend(p.name, a1 + a2 + a3, a4);
    SpokesAppend(p.name, a1 + a2 + a3 + a4, a5);
  }

  /** The node and edge part of `generate_network_graph`. */
  method BuildGraph(p: PersonData) returns (g: Graph)
    ensures fresh(g)
    ensures g.nodes == GraphNodes(p) && g.edges == GraphEdges(p)
  {
    g := new Graph();
    g.AddNode(p.name, Person, None);
    assert g.nodes == PersonNode(p.name) && g.edges == {};
    AddProfileNodes(g, p.name, p.socialProfiles);
    AddKindNodes(g, p.name, p.possibleUsernames, UsernameNode);
    AddEmailNodes(g, p.name, p.emails);
    AddKindNodes(g, p.name, p.organizations, OrganizationNode);
    AddKindNodes(g, p.name, p.locations, LocationNode);
    GraphInParts(p);
  }

  // ---------------------------------------------------------------------------
  // What the graph promises
  // ---------------------------------------------------------------------------

  /** Every edge leaves `name`, and there is one to every added node. */
  lemma {:induction false} SpokesMembers(name: string, adds: seq<Addition>, u: string, v: string)
    ensures (u, v) in Spokes(name, adds) <==> u == name && v in Ids(adds)
  {
    if adds != [] {
      SpokesMembers(name, adds[..|adds| - 1], u, v);
    }
  }

  /** Linking keeps every node, adds the person and every added node, and nothing else. */
  lemma {:induction false} LinkAllKeys(nodes: Nodes, name: string, adds: seq<Addition>)
    ensures adds != [] ==> LinkAll(nodes, name, adds).Keys == nodes.Keys + {name} + Ids(adds)
    ensures adds == [] ==> LinkAll(nodes, name, adds) == nodes
  {
    if adds != [] {
      LinkAllKeys(nodes, name, adds[..|adds| - 1]);
    }
  }

  /** A node's final type is its first type or the type of an addition with its id. */
  lemma {:induction false} LinkAllKind(nodes: Nodes, name: string, adds: seq<Addition>, x: string, kind: NodeKind)
    requires kind != Bare
    requires x in LinkAll(nodes, name, adds) && LinkAll(nodes, name, adds)[x].kind == kind
    ensures (x in nodes && nodes[x].kind == kind) || x in KindIds(adds, kind)
  {
    if adds != [] {
      var init := adds[..|adds| - 1];
      var a := adds[|adds| - 1];
      var before := LinkAll(nodes, name, init);
      var mid := WithNode(before, a.id, a.kind, a.tag);
      if x != a.id {
        assert x in mid;
        if x in before {
          LinkAllKind(nodes, name, init, x, kind);
        }
      }
    }
  }

  /** The graph is a star: every edge leaves the person, and the edges reach
      exactly the added nodes. */
  lemma GraphIsStar(p: PersonData, u: string, v: string)
    ensures (u, v) in GraphEdges(p) <==> u == p.name && v in Ids(GraphAdditions(p))
  {
    SpokesMembers(p.name, GraphAdditions(p), u, v);
  }

  lemma {:induction false} PlatformIds(platform: string, ps: seq<Profile>, i: nat)
    requires i < |ps|
    ensures ProfileId(platform, i) in Ids(PlatformAdditions(platform, ps))
  {
    if i < |ps| - 1 {
      PlatformIds(platform, ps[..|ps| - 1], i);
    }
  }

  lemma {:induction false} ProfileAdditionIds(entries: ProfileMap, k: nat, i: nat)
    requires k < |entries| && i < |entries[k].1|
    ensures ProfileId(entries[k].0, i) in Ids(ProfileAdditions(entries))
  {
    var init := entries[..|entries| - 1];
    var e := entries[|entries| - 1];
    IdsAppend(ProfileAdditions(init), PlatformAdditions(e.0, e.1));
    if k < |entries| - 1 {
      assert init[k] == entries[k];
      ProfileAdditionIds(init, k, i);
    } else {
      PlatformIds(e.0, e.1, i);
    }
  }

  /** The `i`-th profile of platform `k` is the node `platform_i`, linked to the person. */
  lemma ProfileNodes(p: PersonData, k: nat, i: nat)
    requires k < |p.socialProfiles| && i < |p.socialProfiles[k].1|
    ensures ProfileId(p.socialProfiles[k].0, i) in GraphNodes(p)
    ensures (p.name, ProfileId(p.socialProfiles[k].0, i)) in GraphEdges(p)
  {
    var a1 := ProfileAdditions(p.socialProfiles);
    var rest := KindAdditions(p.possibleUsernames, UsernameNode) + EmailAdditions(p.emails) +
                KindAdditions(p.organizations, OrganizationNode) + KindAdditions(p.locations, LocationNode);
    assert GraphAdditions(p) == a1 + rest;
    ProfileAdditionIds(p.socialProfiles, k, i);
    IdsAppend(a1, rest);
    GraphIsStar(p, p.name, ProfileId(p.socialProfiles[k].0, i));
  }

  /** An e-mail node comes from a record with that non-empty address. */
  lemma {:induction false} EmailAdditionKinds(emails: seq<EmailRecord>, x: string)
    requires x in KindIds(EmailAdditions(emails), EmailNode)
    ensures x != "" && exists j :: 0 <= j < |emails| && emails[j].address == x
  {
    var init := emails[..|emails| - 1];
    var address := emails[|emails| - 1].address;
    var tail := if address != "" then [Addition(address, EmailNode, None)] else [];
    KindIdsAppend(EmailAdditions(init), tail, EmailNode);
    if x in KindIds(EmailAdditions(init), EmailNode) {
      EmailAdditionKinds(init, x);
      var j :| 0 <= j < |init| && init[j].address == x;
      assert emails[j] == init[j];
    } else {
      assert emails[|emails| - 1].address == x;
    }
  }

  /** A record with a non-empty address has its address among the ids. */
  lemma {:induction false} EmailAdditionIds(emails: seq<EmailRecord>, j: nat)
    requires j < |emails| && emails[j].address != ""
    ensures emails[j].address in Ids(EmailAdditions(emails))
  {
    var init := emails[..|emails| - 1];
    var address := emails[|emails| - 1].address;
    var tail := if address != "" then [Addition(address, EmailNode, None)] else [];
    IdsAppend(EmailAdditions(init), tail);
    if j < |init| {
      assert init[j] == emails[j];
      EmailAdditionIds(init, j);
    }
  }

  lemma {:induction false} KindAdditionsKinds(ids: seq<string>, kind: NodeKind, other: NodeKind)
    requires kind != other
    ensures KindIds(KindAdditions(ids, kind), other) == {}
  {
    if ids != [] {
      KindAdditionsKinds(ids[..|ids| - 1], kind, other);
    }
  }

  lemma {:induction false} PlatformAdditionsKinds(platform: string, ps: seq<Profile>)
    ensures KindIds(PlatformAdditions(platform, ps), EmailNode) == {}
  {
    if ps != [] {
      PlatformAdditionsKinds(platform, ps[..|ps| - 1]);
    }
  }

  lemma {:induction false} ProfileAdditionsKinds(entries: ProfileMap)
    ensures KindIds(ProfileAdditions(entries), EmailNode) == {}
  {
    if entries != [] {
      var e := entries[|entries| - 1];
      ProfileAdditionsKinds(entries[..|entries| - 1]);
      PlatformAdditionsKinds(e.0, e.1);
      KindIdsAppend(ProfileAdditions(entries[..|entries| - 1]), PlatformAdditions(e.0, e.1), EmailNode);
    }
  }

  /** In the whole graph, the e-mail nodes are those of the e-mail loop. */
  lemma GraphEmailKinds(p: PersonData)
    ensures KindIds(GraphAdditions(p), EmailNode) == KindIds(EmailAdditions(p.emails), EmailNode)
  {
    var a1 := ProfileAdditions(p.socialProfiles);
    var a2 := KindAdditions(p.possibleUsernames, UsernameNode);
    var a3 := EmailAdditions(p.emails);
    var a4 := KindAdditions(p.organizations, OrganizationNode);
    var a5 := KindAdditions(p.locations, LocationNode);
    KindIdsAppend(a1, a2, EmailNode);
    KindIdsAppend(a1 + a2, a3, EmailNode);
    KindIdsAppend(a1 + a2 + a3, a4, EmailNode);
    KindIdsAppend(a1 + a2 + a3 + a4, a5, EmailNode);
    ProfileAdditionsKinds(p.socialProfiles);
    KindAdditionsKinds(p.possibleUsernames, UsernameNode, EmailNode);
    KindAdditionsKinds(p.organizations, OrganizationNode, EmailNode);
    KindAdditionsKinds(p.locations, LocationNode, EmailNode);
  }

  /** Every non-empty address is a node linked to the person. */
  lemma EmailNodesPresent(p: PersonData, j: nat)
    requires j < |p.emails| && p.emails[j].address != ""
    ensures p.emails[j].address in GraphNodes(p) && (p.name, p.emails[j].address) in GraphEdges(p)
  {
    var a12 := ProfileAdditions(p.socialProfiles) + KindAdditions(p.possibleUsernames, UsernameNode);
    var a3 := EmailAdditions(p.emails);
    var a4 := KindAdditions(p.organizations, OrganizationNode);
    var a5 := KindAdditions(p.locations, LocationNode);
    IdsAppend(a12, a3);
    IdsAppend(a12 + a3, a4);
    IdsAppend(a12 + a3 + a4, a5);
    EmailAdditionIds(p.emails, j);
    GraphIsStar(p, p.name, p.emails[j].address);
  }

  /** A node that ends up an e-mail node is a non-empty address of the record. */
  lemma EmailNodesFromRecords(p: PersonData, x: string)
    requires x in GraphNodes(p) && GraphNodes(p)[x].kind == EmailNode
    ensures x != "" && exists j :: 0 <= j < |p.emails| && p.emails[j].address == x
  {
    LinkAllKind(PersonNode(p.name), p.name, GraphAdditions(p), x, EmailNode);
    GraphEmailKinds(p);
    EmailAdditionKinds(p.emails, x);
  }
}
