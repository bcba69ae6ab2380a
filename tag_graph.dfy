/** The data side of the tag relationship graph: the node list built from the relations
    (one node per distinct tag, the selected tag in group 1 and all others in group 2),
    the link list, the click rule and the strength label drawn inside related nodes. */
module TagGraph {
  import opened Optional
  import opened Seqs
  import opened Text
  import opened TagTypes
  import opened TagStats

  /** `{ id, group }`: group 1 is the selected, central tag; group 2 a related tag. */
  datatype TagNode = TagNode(id: string, group: nat)

  datatype Graph = Graph(nodes: seq<TagNode>, links: seq<TagRelation>)

  function GroupOf(id: string, selectedTag: string): (g: nat)
    ensures g == 1 <==> id == selectedTag
    ensures g == 1 || g == 2
  {
    if id == selectedTag then 1 else 2
  }

  /** Source and target of every relation, in the order the graph visits them. */
  function Endpoints(relations: seq<TagRelation>): (r: seq<string>)
    ensures |r| == 2 * |relations|
  {
    if relations == [] then []
    else
      var last := relations[|relations| - 1];
      Endpoints(relations[..|relations| - 1]) + [last.source, last.target]
  }

  predicate TouchedBy(relations: seq<TagRelation>, x: string) {
    exists k :: 0 <= k < |relations| && (relations[k].source == x || relations[k].target == x)
  }

  /** A value is an endpoint exactly when it is the source or the target of some relation. */
  lemma {:induction false} EndpointsMembers(relations: seq<TagRelation>, x: string)
    ensures x in Endpoints(relations) <==> TouchedBy(relations, x)
  {
    if relations != [] {
      var n := |relations| - 1;
      var init := relations[..n];
      EndpointsMembers(init, x);
      assert Endpoints(relations) == Endpoints(init) + [relations[n].source, relations[n].target];
      if TouchedBy(init, x) {
        var k :| 0 <= k < |init| && (init[k].source == x || init[k].target == x);
        assert relations[k] == init[k];
      }
      if TouchedBy(relations, x) && !(relations[n].source == x || relations[n].target == x) {
        var k :| 0 <= k < |relations| && (relations[k].source == x || relations[k].target == x);
        assert k < n && init[k] == relations[k];
      }
    }
  }

  /** One node per id, grouped relative to the selected tag. */
  function NodesFor(ids: seq<string>, selectedTag: string): (r: seq<TagNode>)
    ensures |r| == |ids|
    ensures forall k :: 0 <= k < |r| ==> r[k] == TagNode(ids[k], GroupOf(ids[k], selectedTag))
  {
    if ids == [] then [] else [TagNode(ids[0], GroupOf(ids[0], selectedTag))] + NodesFor(ids[1..], selectedTag)
  }

  /** The ids in first-insertion order: every endpoint once, then the selected tag if it is
      not already there. */
  function NodeIds(relations: seq<TagRelation>, selectedTag: string): seq<string> {
    Dedup(Endpoints(relations) + [selectedTag])
  }

  /** The graph drawn for non-empty relations. */
  function GraphOf(relations: seq<TagRelation>, selectedTag: string): Graph {
    Graph(NodesFor(NodeIds(relations, selectedTag), selectedTag), relations)
  }

  /** The node list has one node per distinct tag: every endpoint and the selected tag, with
      no other ids and no duplicates; the selected tag is the only node in group 1. */
  lemma GraphNodesFacts(relations: seq<TagRelation>, selectedTag: string)
    ensures var ids := NodeIds(relations, selectedTag);
      && Distinct(ids)
      && selectedTag in ids
      && (forall k :: 0 <= k < |relations| ==> relations[k].source in ids && relations[k].target in ids)
      && (forall x :: x in ids ==> x == selectedTag || x in Endpoints(relations))
    ensures var nodes := GraphOf(relations, selectedTag).nodes;
      forall k :: 0 <= k < |nodes| ==> (nodes[k].group == 1 <==> nodes[k].id == selectedTag)
  {
    var e := Endpoints(relations);
    DedupFacts(e + [selectedTag]);
    var ids := NodeIds(relations, selectedTag);
    forall k | 0 <= k < |relations| ensures relations[k].source in ids && relations[k].target in ids {
      EndpointsMembers(relations, relations[k].source);
      EndpointsMembers(relations, relations[k].target);
    }
    forall x | x in ids ensures x == selectedTag || x in e {
      assert x in e + [selectedTag];
    }
  }

  /** Exactly one node is in group 1. */
  lemma OneCentralNode(relations: seq<TagRelation>, selectedTag: string, i: nat, j: nat)
    requires i < |GraphOf(relations, selectedTag).nodes| && j < |GraphOf(relations, selectedTag).nodes|
    requires GraphOf(relations, selectedTag).nodes[i].group == 1 && GraphOf(relations, selectedTag).nodes[j].group == 1
    ensures i == j
  {
    GraphNodesFacts(relations, selectedTag);
  }

  /** The node map and its insertion order agree: each id once, grouped by the selected tag. */
  ghost predicate MapMatches(nodeMap: map<string, TagNode>, order: seq<string>, selectedTag: string) {
    && (forall id :: id in nodeMap <==> id in order)
    && (forall id :: id in nodeMap ==> nodeMap[id] == TagNode(id, GroupOf(id, selectedTag)))
  }

  /** Adding a node for `id` unless the map has one keeps the map and the de-duplicated
      visit order in step. */
  method AddNode(nodeMap0: map<string, TagNode>, order0: seq<string>, selectedTag: string, id: string,
                 ghost seen: seq<string>)
    returns (nodeMap: map<string, TagNode>, order: seq<string>)
    requires order0 == Dedup(seen) && MapMatches(nodeMap0, order0, selectedTag)
    ensures order == Dedup(seen + [id]) && MapMatches(nodeMap, order, selectedTag)
  {
    DedupFacts(seen);
    DedupSnoc(seen, id);
    nodeMap, order := nodeMap0, order0;
    if id !in nodeMap {
      nodeMap := nodeMap[id := TagNode(id, GroupOf(id, selectedTag))];
      order := order + [id];
    }
  }

  /** `links.forEach(...)`: visit source then target of every link. */
  method VisitLinks(links: seq<TagRelation>, selectedTag: string)
    returns (nodeMap: map<string, TagNode>, order: seq<string>)
    ensures order == Dedup(Endpoints(links)) && MapMatches(nodeMap, order, selectedTag)
  {
    nodeMap, order := map[], [];
    var i := 0;
    while i < |links|
      invariant 0 <= i <= |links|
      invariant order == Dedup(Endpoints(links[..i])) && MapMatches(nodeMap, order, selectedTag)
    {
      var rel := links[i];
      ghost var e := Endpoints(links[..i]);
      assert links[..i + 1][..i] == links[..i];
      assert Endpoints(links[..i + 1]) == (e + [rel.source]) + [rel.target];
      nodeMap, order := AddNode(nodeMap, order, selectedTag, rel.source, e);
      nodeMap, order := AddNode(nodeMap, order, selectedTag, rel.target, e + [rel.source]);
      i := i + 1;
    }
    assert links[..i] == links;
  }

  /** The graph component's effect: nothing is drawn for an empty relation list; otherwise
      the links copy the relations and the nodes come from a map filled in visiting order,
      the selected tag added last when no relation mentions it. */
  method BuildGraph(relations: seq<TagRelation>, selectedTag: string) returns (graph: Option<Graph>)
    ensures relations == [] ==> graph == None
    ensures relations != [] ==> graph == Some(GraphOf(relations, selectedTag))
  {
    if |relations| == 0 {
      return None;
    }
    var links := relations;
    var nodeMap, order := VisitLinks(links, selectedTag);
    nodeMap, order := AddNode(nodeMap, order, selectedTag, selectedTag, Endpoints(links));
    var nodes: seq<TagNode> := [];
    var j := 0;
    while j < |order|
      invariant 0 <= j <= |order|
      invariant |nodes| == j
      invariant forall k :: 0 <= k < j ==> nodes[k] == TagNode(order[k], GroupOf(order[k], selectedTag))
    {
      nodes := nodes + [nodeMap[order[j]]];
      j := j + 1;
    }
    assert nodes == NodesFor(order, selectedTag);
    graph := Some(Graph(nodes, links));
  }

  /** The click handler: clicking a node other than the centre selects that tag. */
  function ClickSelection(nodeId: string, selectedTag: string): (r: Option<string>)
    ensures r.Some? <==> nodeId != selectedTag
    ensures r.Some? ==> r.value == nodeId
  {
    if nodeId != selectedTag then Some(nodeId) else None
  }

  predicate IsCenterRelation(rel: TagRelation, selectedTag: string, id: string) {
    rel.source == selectedTag && rel.target == id
  }

  /** `relations.find(...)` for the relation from the centre to `id`, as an index. */
  function FindCenterRelation(relations: seq<TagRelation>, selectedTag: string, id: string): (r: Option<nat>)
    ensures r.Some? ==> r.value < |relations| && IsCenterRelation(relations[r.value], selectedTag, id)
    ensures r.Some? ==> forall j :: 0 <= j < r.value ==> !IsCenterRelation(relations[j], selectedTag, id)
    ensures r.None? <==> forall j :: 0 <= j < |relations| ==> !IsCenterRelation(relations[j], selectedTag, id)
  {
    if relations == [] then None
    else if IsCenterRelation(relations[0], selectedTag, id) then Some(0)
    else
      match FindCenterRelation(relations[1..], selectedTag, id)
      case None => None
      case Some(k) => Some(k + 1)
  }

  /** `Math.round(strength * 100)` for a positive denominator: the nearest whole percent,
      halves rounded up. */
  function RoundedPercent(s: Ratio): (p: nat)
    requires s.den > 0
    ensures 2 * s.den * p <= 200 * s.num + s.den < 2 * s.den * (p + 1)
  {
    (200 * s.num + s.den) / (2 * s.den)
  }

  /** A strength of at most one never shows more than 100%. */
  lemma PercentAtMostHundred(s: Ratio)
    requires 0 < s.den && s.num <= s.den
    ensures RoundedPercent(s) <= 100
  {
    var p := RoundedPercent(s);
    assert s.den * (2 * p) <= s.den * 201;
    MulLeCancel(2 * p, 201, s.den);
  }

  /** Arithmetic helper: a positive factor can be cancelled from both sides. */
  lemma MulLeCancel(a: int, b: int, c: int)
    requires c > 0 && c * a <= c * b
    ensures a <= b
  {
  }

  /** The percentage text; a zero denominator gives JavaScript's `NaN` or `Infinity`. */
  function PercentLabel(s: Ratio): string {
    if s.den == 0 then (if s.num == 0 then "NaN%" else "Infinity%")
    else NatToString(RoundedPercent(s)) + "%"
  }

  /** The label inside a related node: the first centre-to-node relation's percentage, or "". */
  function StrengthLabel(relations: seq<TagRelation>, selectedTag: string, id: string): (r: string)
    ensures FindCenterRelation(relations, selectedTag, id).None? ==> r == ""
    ensures FindCenterRelation(relations, selectedTag, id).Some? ==>
      r == PercentLabel(relations[FindCenterRelation(relations, selectedTag, id).value].strength)
  {
    match FindCenterRelation(relations, selectedTag, id)
    case None => ""
    case Some(k) => PercentLabel(relations[k].strength)
  }

  /** Targets of the relations, in order. */
  function Targets(relations: seq<TagRelation>): (r: seq<string>)
    ensures |r| == |relations|
    ensures forall k :: 0 <= k < |r| ==> r[k] == relations[k].target
  {
    if relations == [] then []
    else Targets(relations[..|relations| - 1]) + [relations[|relations| - 1].target]
  }

  lemma StarOne(rel: TagRelation, tag: string)
    requires rel.source == tag && rel.target != tag
    ensures Dedup(Endpoints([rel])) == [tag] + Dedup(Targets([rel]))
  {
    assert Endpoints([rel]) == [tag] + [rel.target];
    assert Dedup([tag]) == [tag];
    DedupSnoc([tag], rel.target);
    assert Targets([rel]) == [] + [rel.target];
  }

  /** For relations that all start at `tag` and never end there, the visit order is `tag`
      followed by the distinct targets. */
  lemma {:induction false} StarEndpoints(relations: seq<TagRelation>, tag: string)
    requires relations != []
    requires forall k :: 0 <= k < |relations| ==> relations[k].source == tag && relations[k].target != tag
    ensures Dedup(Endpoints(relations)) == [tag] + Dedup(Targets(relations))
  {
    var n := |relations| - 1;
    var init := relations[..n];
    var t := relations[n].target;
    if n == 0 {
      assert relations == [relations[0]];
      StarOne(relations[0], tag);
    } else {
      var e := Endpoints(init);
      var d := Dedup(Targets(init));
      EndpointsSnoc(relations, tag, t);
      TargetsSnoc(relations);
      StarEndpoints(init, tag);
      EndpointsMembers(init, tag);
      assert init[0].source == tag;
      DedupSnoc(e, tag);
      StarMembers(init, tag, t);
      DedupSnoc(e + [tag], t);
      DedupSnoc(Targets(init), t);
      if t !in Targets(init) {
        AppendAssoc([tag], d, [t]);
      }
    }
  }

  lemma EndpointsSnoc(relations: seq<TagRelation>, tag: string, t: string)
    requires relations != []
    requires relations[|relations| - 1].source == tag && relations[|relations| - 1].target == t
    ensures Endpoints(relations) == (Endpoints(relations[..|relations| - 1]) + [tag]) + [t]
  {
    AppendAssoc(Endpoints(relations[..|relations| - 1]), [tag], [t]);
  }

  lemma TargetsSnoc(relations: seq<TagRelation>)
    requires relations != []
    ensures Targets(relations) == Targets(relations[..|relations| - 1]) + [relations[|relations| - 1].target]
  {
  }

  lemma StarMembers(relations: seq<TagRelation>, tag: string, t: string)
    requires forall k :: 0 <= k < |relations| ==> relations[k].source == tag
    requires t != tag
    ensures t in Endpoints(relations) + [tag] <==> t in Targets(relations)
  {
    EndpointsMembers(relations, t);
    assert t in Endpoints(relations) + [tag] <==> t in Endpoints(relations);
    if t in Targets(relations) {
      var k :| 0 <= k < |relations| && Targets(relations)[k] == t;
      assert relations[k].target == t;
    }
    if TouchedBy(relations, t) {
      var k :| 0 <= k < |relations| && (relations[k].source == t || relations[k].target == t);
      assert Targets(relations)[k] == t;
    }
  }

  /** The graph of the tag page's relations: the selected tag first, then the related tags
      in list order, each once. */
  lemma GraphOfRelationsFor(tagName: string, related: seq<TagInfo>, articleCount: nat)
    requires related != []
    requires forall k :: 0 <= k < |related| ==> related[k].name != tagName
    ensures NodeIds(RelationsFor(tagName, related, articleCount), tagName) == [tagName] + Dedup(Names(related))
  {
    var rels := RelationsFor(tagName, related, articleCount);
    StarEndpoints(rels, tagName);
    assert Targets(rels) == Names(related);
    EndpointsMembers(rels, tagName);
    assert rels[0].source == tagName;
    DedupSnoc(Endpoints(rels), tagName);
  }

  /** In the tag page's relations, the label of a related tag is its own strength, read at
      the first entry with its name. */
  lemma LabelOfRelationsFor(tagName: string, related: seq<TagInfo>, articleCount: nat, k: nat)
    requires k < |related|
    requires forall j :: 0 <= j < k ==> related[j].name != related[k].name
    ensures StrengthLabel(RelationsFor(tagName, related, articleCount), tagName, related[k].name)
      == PercentLabel(Ratio(related[k].count, articleCount))
  {
    var rels := RelationsFor(tagName, related, articleCount);
    var found := FindCenterRelation(rels, tagName, related[k].name);
    assert IsCenterRelation(rels[k], tagName, related[k].name);
  }
}
