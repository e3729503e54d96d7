/**
 * The outer graph of backend/graph.py: its nodes, its static edges and the two
 * fan-outs that depend on the plan (`human_feedback`'s command and the
 * conditional edge out of `gather_completed_sections`). A fan-out that sends
 * nothing activates no node.
 */
module GraphWiring {
  import opened State
  import opened GraphDispatch
  import GraphPlan

  datatype Node =
    | Start | GenerateReportPlan | HumanFeedbackNode | BuildSectionWithWebResearch
    | GatherCompletedSections | WriteFinalSectionsNode | CompileFinalReportNode | End

  /** The nodes the runtime may activate after `n`, for the report state `state`. */
  function Successors(n: Node, state: ReportState): set<Node>
  {
    match n
    case Start => {GenerateReportPlan}
    case GenerateReportPlan => {HumanFeedbackNode}
    case HumanFeedbackNode => if HumanFeedback(state) == [] then {} else {BuildSectionWithWebResearch}
    case BuildSectionWithWebResearch => {GatherCompletedSections}
    case GatherCompletedSections => if InitiateFinalSectionWriting(state) == [] then {} else {WriteFinalSectionsNode}
    case WriteFinalSectionsNode => {CompileFinalReportNode}
    case CompileFinalReportNode => {End}
    case End => {}
  }

  /** A run of the graph from START. */
  predicate IsRun(path: seq<Node>, state: ReportState)
  {
    |path| >= 1 && path[0] == Start
    && forall k :: 0 <= k < |path| - 1 ==> path[k + 1] in Successors(path[k], state)
  }

  predicate HasResearchSection(sections: seq<Section>)
  {
    exists i :: 0 <= i < |sections| && sections[i].research
  }

  predicate HasWritingSection(sections: seq<Section>)
  {
    exists i :: 0 <= i < |sections| && !sections[i].research
  }

  /** What a node being active says about the plan. */
  predicate Gate(n: Node, sections: seq<Section>)
  {
    && (n in {BuildSectionWithWebResearch, GatherCompletedSections, WriteFinalSectionsNode, CompileFinalReportNode, End} ==>
          HasResearchSection(sections))
    && (n in {WriteFinalSectionsNode, CompileFinalReportNode, End} ==> HasWritingSection(sections))
  }

  lemma {:induction false} RunIsGated(path: seq<Node>, state: ReportState, k: nat)
    requires IsRun(path, state) && k < |path|
    ensures Gate(path[k], state.sections)
  {
    if k > 0 {
      RunIsGated(path, state, k - 1);
      ResearchFanOutEmpty(state.topic, state.sections);
      FinalFanOutEmpty(state.topic, state.sections, state.reportSectionsFromResearch);
      assert path[k] in Successors(path[k - 1], state);
    }
  }

  /**
   * `compile_final_report` only runs when the plan has at least one section with research
   * and one without: otherwise one of the two fan-outs sends nothing and the run stops there.
   */
  lemma CompileNeedsBothKinds(path: seq<Node>, state: ReportState, k: nat)
    requires IsRun(path, state) && k < |path| && path[k] == CompileFinalReportNode
    ensures HasResearchSection(state.sections) && HasWritingSection(state.sections)
  {
    RunIsGated(path, state, k);
  }

  /** With both kinds of section, the run through every stage to END is possible. */
  lemma CompileReachedWithBothKinds(state: ReportState)
    requires HasResearchSection(state.sections) && HasWritingSection(state.sections)
    ensures IsRun([Start, GenerateReportPlan, HumanFeedbackNode, BuildSectionWithWebResearch,
                   GatherCompletedSections, WriteFinalSectionsNode, CompileFinalReportNode, End], state)
  {
    ResearchFanOutEmpty(state.topic, state.sections);
    FinalFanOutEmpty(state.topic, state.sections, state.reportSectionsFromResearch);
  }

  /** The fallback plan has one research and two writing sections, so its run reaches the compile step. */
  lemma FallbackPlanReachesCompile(state: ReportState)
    requires state.sections == GraphPlan.FallbackPlan(state.topic)
    ensures |HumanFeedback(state)| == 1 && |InitiateFinalSectionWriting(state)| == 2
    ensures IsRun([Start, GenerateReportPlan, HumanFeedbackNode, BuildSectionWithWebResearch,
                   GatherCompletedSections, WriteFinalSectionsNode, CompileFinalReportNode, End], state)
  {
    var plan := state.sections;
    var t := state.topic;
    var ctx := state.reportSectionsFromResearch;
    assert plan[1].research && !plan[0].research;
    CompileReachedWithBothKinds(state);
    assert plan[1..][1..] == [plan[2]] && plan[1..][1..][1..] == [];
    assert ResearchTasks(t, [plan[2]]) == [];
    assert ResearchTasks(t, plan[1..]) == [ResearchTask(t, plan[1], 0)];
    assert ResearchTasks(t, plan) == [ResearchTask(t, plan[1], 0)];
    assert FinalWritingTasks(t, [plan[2]], ctx) == [FinalWritingTask(t, plan[2], ctx)];
    assert FinalWritingTasks(t, plan[1..], ctx) == [FinalWritingTask(t, plan[2], ctx)];
    assert |FinalWritingTasks(t, plan, ctx)| == 2;
  }
}
