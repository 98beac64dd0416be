/**
 * The lead pipeline graph: eight nodes joined by fixed edges and by
 * conditional edges whose path maps name every target a router may pick.
 */
module Workflow {
  import opened LeadStates
  import opened Routing

  const Start := "__start__"
  const End := "__end__"

  /** The transitions a graph's edges and branches allow. */
  function EdgeSet(edges: seq<(string, string)>, branches: seq<(string, map<string, string>)>): set<(string, string)> {
    FixedSet(edges) + BranchSet(branches)
  }

  /** The transitions of the fixed edges. */
  function FixedSet(edges: seq<(string, string)>): set<(string, string)> {
    set i | 0 <= i < |edges| :: edges[i]
  }

  /** The transitions of the conditional edges, branch by branch. */
  function BranchSet(branches: seq<(string, map<string, string>)>): set<(string, string)> {
    if branches == [] then {}
    else BranchSet(branches[..|branches| - 1]) + Targets(branches[|branches| - 1].0, branches[|branches| - 1].1)
  }

  /** From the source to every target its path map names. */
  function Targets(source: string, pathMap: map<string, string>): set<(string, string)> {
    set t | t in pathMap.Values :: (source, t)
  }

  /** A LangGraph StateGraph builder. */
  class StateGraph {
    var nodes: seq<string>
    var edges: seq<(string, string)>
    var branches: seq<(string, map<string, string>)>

    constructor ()
      ensures nodes == [] && edges == [] && branches == []
    {
      nodes := [];
      edges := [];
      branches := [];
    }

    /** `add_node`: a name may be added once, and never a reserved one. */
    method AddNode(name: string)
      requires name !in nodes && name != Start && name != End
      modifies this
      ensures nodes == old(nodes) + [name] && edges == old(edges) && branches == old(branches)
    {
      nodes := nodes + [name];
    }

    /** `add_edge` */
    method AddEdge(source: string, target: string)
      modifies this
      ensures edges == old(edges) + [(source, target)] && nodes == old(nodes) && branches == old(branches)
    {
      edges := edges + [(source, target)];
    }

    /** `add_conditional_edges` with a path map from router result to node. */
    method AddConditionalEdges(source: string, pathMap: map<string, string>)
      modifies this
      ensures branches == old(branches) + [(source, pathMap)] && nodes == old(nodes) && edges == old(edges)
    {
      branches := branches + [(source, pathMap)];
    }

    function Transitions(): set<(string, string)>
      reads this
    {
      EdgeSet(edges, branches)
    }
  }

  const ScorePaths: map<string, string> := map["draft" := "draft", "auto_reject" := "auto_reject"]
  const DraftPaths: map<string, string> := map["send" := "send", "human_review" := "human_review"]
  const ReviewPaths: map<string, string> :=
    map["draft" := "draft", "send" := "send", "auto_reject" := "auto_reject", "research" := "research"]

  const PipelineNodes: seq<string> :=
    ["ingest", "research", "enrich", "score", "draft", "human_review", "send", "auto_reject"]

  const PipelineEdges: seq<(string, string)> :=
    [(Start, "ingest"), ("ingest", "research"), ("research", "enrich"), ("enrich", "score"),
     ("send", End), ("auto_reject", End)]

  const PipelineBranches: seq<(string, map<string, string>)> :=
    [("score", ScorePaths), ("draft", DraftPaths), ("human_review", ReviewPaths)]

  /** `build_workflow`: the builder calls in source order. */
  method BuildWorkflow() returns (g: StateGraph)
    ensures fresh(g)
    ensures g.nodes == PipelineNodes && g.edges == PipelineEdges && g.branches == PipelineBranches
  {
    g := new StateGraph();
    g.AddNode("ingest");
    g.AddNode("research");
    g.AddNode("enrich");
    g.AddNode("score");
    g.AddNode("draft");
    g.AddNode("human_review");
    g.AddNode("send");
    g.AddNode("auto_reject");
    g.AddEdge(Start, "ingest");
    g.AddEdge("ingest", "research");
    g.AddEdge("research", "enrich");
    g.AddEdge("enrich", "score");
    g.AddConditionalEdges("score", ScorePaths);
    g.AddConditionalEdges("draft", DraftPaths);
    g.AddConditionalEdges("human_review", ReviewPaths);
    g.AddEdge("send", End);
    g.AddEdge("auto_reject", End);
  }

  /** The transition relation of the built graph, written out. */
  const PipelineTransitions: set<(string, string)> :=
    {(Start, "ingest"), ("ingest", "research"), ("research", "enrich"), ("enrich", "score"),
     ("score", "draft"), ("score", "auto_reject"),
     ("draft", "send"), ("draft", "human_review"),
     ("human_review", "draft"), ("human_review", "send"), ("human_review", "auto_reject"), ("human_review", "research"),
     ("send", End), ("auto_reject", End)}

  /** A path map that sends each key to itself has its keys as values. */
  lemma IdentityValues(m: map<string, string>)
    requires forall k :: k in m ==> m[k] == k
    ensures m.Values == m.Keys
  {
    forall v | v in m.Values ensures v in m.Keys {
      var k :| k in m && m[k] == v;
    }
    forall k | k in m.Keys ensures k in m.Values {
      assert m[k] == k;
    }
  }

  /** The builder calls produce exactly the written-out relation. */
  lemma BuiltTransitions()
    ensures EdgeSet(PipelineEdges, PipelineBranches) == PipelineTransitions
  {
    FixedEdges();
    BranchEdges();
  }

  /** The fixed edges: the chain from the start to scoring, and the two ends. */
  lemma FixedEdges()
    ensures FixedSet(PipelineEdges) == {(Start, "ingest"), ("ingest", "research"), ("research", "enrich"), ("enrich", "score"),
                                        ("send", End), ("auto_reject", End)}
  {
    var fixed := FixedSet(PipelineEdges);
    assert PipelineEdges[0] in fixed && PipelineEdges[1] in fixed && PipelineEdges[2] in fixed;
    assert PipelineEdges[3] in fixed && PipelineEdges[4] in fixed && PipelineEdges[5] in fixed;
  }

  /** The conditional edges: every target of the three path maps. */
  lemma BranchEdges()
    ensures BranchSet(PipelineBranches) == {("score", "draft"), ("score", "auto_reject"), ("draft", "send"), ("draft", "human_review"),
                                            ("human_review", "draft"), ("human_review", "send"), ("human_review", "auto_reject"),
                                            ("human_review", "research")}
  {
    var bs := PipelineBranches;
    assert bs[..2][..1][..0] == [] && bs[..2][..1] == [bs[0]] && bs[..2] == [bs[0], bs[1]];
    assert BranchSet(bs) == BranchSet(bs[..2]) + Targets("human_review", ReviewPaths);
    assert BranchSet(bs[..2]) == BranchSet(bs[..2][..1]) + Targets("draft", DraftPaths);
    assert BranchSet(bs[..2][..1]) == Targets("score", ScorePaths);
    PathTargets();
  }

  /** Each path map leads from its source to each of its keys. */
  lemma PathTargets()
    ensures Targets("score", ScorePaths) == {("score", "draft"), ("score", "auto_reject")}
    ensures Targets("draft", DraftPaths) == {("draft", "send"), ("draft", "human_review")}
    ensures Targets("human_review", ReviewPaths) ==
      {("human_review", "draft"), ("human_review", "send"), ("human_review", "auto_reject"), ("human_review", "research")}
  {
    IdentityTargets("score", ScorePaths);
    assert Targets("score", ScorePaths) == {("score", "draft"), ("score", "auto_reject")} by {
      assert ScorePaths.Keys == {"draft", "auto_reject"};
    }
    IdentityTargets("draft", DraftPaths);
    assert Targets("draft", DraftPaths) == {("draft", "send"), ("draft", "human_review")} by {
      assert DraftPaths.Keys == {"send", "human_review"};
    }
    IdentityTargets("human_review", ReviewPaths);
    assert Targets("human_review", ReviewPaths) ==
      {("human_review", "draft"), ("human_review", "send"), ("human_review", "auto_reject"), ("human_review", "research")} by {
      assert ReviewPaths.Keys == {"draft", "send", "auto_reject", "research"};
    }
  }

  /** A path map that sends each key to itself leads from the source to exactly its keys. */
  lemma IdentityTargets(source: string, pathMap: map<string, string>)
    requires forall k :: k in pathMap ==> pathMap[k] == k
    ensures forall e :: e in Targets(source, pathMap) <==> e.0 == source && e.1 in pathMap
  {
    IdentityValues(pathMap);
  }

  /** The nodes the built graph may move to from `n`. */
  function Successors(n: string): set<string> {
    set e | e in PipelineTransitions && e.0 == n :: e.1
  }

  /** Each node's successors in the built graph. */
  lemma SuccessorTable()
    ensures Successors(Start) == {"ingest"}
    ensures Successors("ingest") == {"research"}
    ensures Successors("research") == {"enrich"}
    ensures Successors("enrich") == {"score"}
    ensures Successors("score") == {"draft", "auto_reject"}
    ensures Successors("draft") == {"send", "human_review"}
    ensures Successors("human_review") == {"draft", "send", "auto_reject", "research"}
    ensures Successors("send") == {End} && Successors("auto_reject") == {End}
    ensures Successors(End) == {}
  {
    assert (Start, "ingest") in PipelineTransitions;
    assert ("ingest", "research") in PipelineTransitions;
    assert ("research", "enrich") in PipelineTransitions;
    assert ("enrich", "score") in PipelineTransitions;
    assert ("score", "draft") in PipelineTransitions && ("score", "auto_reject") in PipelineTransitions;
    assert ("draft", "send") in PipelineTransitions && ("draft", "human_review") in PipelineTransitions;
    assert ("human_review", "draft") in PipelineTransitions && ("human_review", "send") in PipelineTransitions;
    assert ("human_review", "auto_reject") in PipelineTransitions && ("human_review", "research") in PipelineTransitions;
    assert ("send", End) in PipelineTransitions && ("auto_reject", End) in PipelineTransitions;
  }

  /** A walk through the built graph that begins at START. */
  ghost predicate IsRun(p: seq<string>) {
    |p| > 0 && p[0] == Start && forall i :: 0 < i < |p| ==> (p[i - 1], p[i]) in PipelineTransitions
  }

  /** Until score is reached, a run stays on the linear prefix START, ingest, research, enrich. */
  lemma {:induction false} PrefixBeforeScore(p: seq<string>, k: nat)
    requires IsRun(p) && k < |p|
    ensures (forall j :: 0 <= j <= k ==> p[j] != "score") ==> p[k] in {Start, "ingest", "research", "enrich"}
  {
    if k > 0 {
      PrefixBeforeScore(p, k - 1);
      assert (p[k - 1], p[k]) in PipelineTransitions;
    }
  }

  /** Every run from START passes score before it reaches draft, send or human_review. */
  lemma ScoreComesFirst(p: seq<string>, i: nat)
    requires IsRun(p) && i < |p| && p[i] in {"draft", "send", "human_review"}
    ensures exists j :: 0 <= j < i && p[j] == "score"
  {
    PrefixBeforeScore(p, i);
  }

  /** Every result a router can return is a key of its path map. */
  lemma RoutesAreMapped(s: State)
    requires Annotated(s, "score") && Annotated(s, "confidence")
    ensures RouteAfterScoring(s) in ScorePaths
    ensures RouteAfterDrafting(s) in DraftPaths
    ensures RouteAfterReview(s) in ReviewPaths
  {
  }
}
