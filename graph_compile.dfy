/**
 * The last two stages of backend/graph.py: `write_final_sections`, which fills in
 * a section without research, and `compile_final_report`, which copies every
 * finished section's content back into the plan, by name, and joins the plan's
 * contents with blank lines.
 */
module GraphCompile {
  import opened Wrappers
  import opened Strings
  import opened State
  import opened GraphDispatch

  /** `write_final_sections`: the section with the writer's text, published as the only update. */
  function WriteFinalSections(task: FinalWritingTask, content: string): (out: SectionOutputState)
    ensures |out.completedSections| == 1
    ensures out.completedSections[0].name == task.section.name
    ensures out.completedSections[0].description == task.section.description
    ensures out.completedSections[0].research == task.section.research
    ensures out.completedSections[0].content == content
  {
    SectionOutputState([task.section.(content := content)])
  }

  /**
   * The name-to-content dictionary `compile_final_report` builds from the completed sections;
   * for a repeated name a later section overwrites an earlier one.
   */
  function ContentByName(completed: seq<Section>): map<string, string>
  {
    if completed == [] then map[]
    else
      var last := completed[|completed| - 1];
      ContentByName(completed[..|completed| - 1])[last.name := last.content]
  }

  /** Index of the last completed section with the given name, if any. */
  function LastNamed(completed: seq<Section>, name: string): (r: Option<nat>)
    ensures r.None? <==> forall j :: 0 <= j < |completed| ==> completed[j].name != name
    ensures r.Some? ==> r.value < |completed| && completed[r.value].name == name
    ensures r.Some? ==> forall j :: r.value < j < |completed| ==> completed[j].name != name
  {
    if completed == [] then None
    else if completed[|completed| - 1].name == name then Some(|completed| - 1)
    else LastNamed(completed[..|completed| - 1], name)
  }

  /** The dictionary holds a name iff some completed section has it, and then the last one's content. */
  lemma {:induction false} ContentByNameLastWins(completed: seq<Section>, name: string)
    ensures name in ContentByName(completed) <==> LastNamed(completed, name).Some?
    ensures name in ContentByName(completed) ==>
      ContentByName(completed)[name] == completed[LastNamed(completed, name).value].content
  {
    if completed != [] {
      ContentByNameLastWins(completed[..|completed| - 1], name);
    }
  }

  /** The content the dictionary holds for a name, or "" when the name is absent. */
  function ContentFor(byName: map<string, string>, name: string): string
  {
    if name in byName then byName[name] else ""
  }

  /** The plan after the loop of `compile_final_report`. */
  function MergeCompleted(sections: seq<Section>, completed: seq<Section>): seq<Section>
  {
    var byName := ContentByName(completed);
    seq(|sections|, i requires 0 <= i < |sections| => sections[i].(content := ContentFor(byName, sections[i].name)))
  }

  function Contents(sections: seq<Section>): seq<string>
  {
    seq(|sections|, i requires 0 <= i < |sections| => sections[i].content)
  }

  /**
   * `compile_final_report`: overwrites each plan section's content in place and returns the
   * contents joined by "\n\n".
   */
  method CompileFinalReport(sections: array<Section>, completed: seq<Section>) returns (output: ReportStateOutput)
    modifies sections
    ensures sections[..] == MergeCompleted(old(sections[..]), completed)
    ensures output.finalReport == Join("\n\n", Contents(sections[..]))
  {
    var byName := ContentByName(completed);
    ghost var original := sections[..];
    for i := 0 to sections.Length
      invariant forall k :: 0 <= k < i ==> sections[k] == original[k].(content := ContentFor(byName, original[k].name))
      invariant forall k :: i <= k < sections.Length ==> sections[k] == original[k]
    {
      sections[i] := sections[i].(content := if sections[i].name in byName then byName[sections[i].name] else "");
    }
    output := ReportStateOutput(Join("\n\n", Contents(sections[..])));
  }

  /**
   * Each plan section keeps its name, description and research flag and gets the content of
   * the last completed section with its name, or "" when no completed section has it.
   */
  lemma CompiledSection(sections: seq<Section>, completed: seq<Section>, i: nat)
    requires i < |sections|
    ensures |MergeCompleted(sections, completed)| == |sections|
    ensures var s := MergeCompleted(sections, completed)[i];
      s.name == sections[i].name && s.description == sections[i].description && s.research == sections[i].research
    ensures LastNamed(completed, sections[i].name).None? ==> MergeCompleted(sections, completed)[i].content == ""
    ensures LastNamed(completed, sections[i].name).Some? ==>
      MergeCompleted(sections, completed)[i].content == completed[LastNamed(completed, sections[i].name).value].content
  {
    ContentByNameLastWins(completed, sections[i].name);
  }

  /** The report holds section `i`'s compiled content at its place in plan order, after the earlier ones. */
  lemma FinalReportInPlanOrder(sections: seq<Section>, completed: seq<Section>, i: nat)
    requires i < |sections|
    ensures var parts := Contents(MergeCompleted(sections, completed));
      var report := Join("\n\n", parts);
      var at := Offset("\n\n", parts, i);
      at + |parts[i]| <= |report| && report[at..at + |parts[i]|] == MergeCompleted(sections, completed)[i].content
  {
    JoinPartAt("\n\n", Contents(MergeCompleted(sections, completed)), i);
  }

  /**
   * End to end: when every completed entry is some plan section with the text written for it
   * (`origin[j]` says which), every plan section is dispatched, and plan names are distinct,
   * each plan section ends up with exactly the text written for it, whatever the arrival order.
   */
  lemma EverySectionGetsItsContent(sections: seq<Section>, written: seq<string>, completed: seq<Section>, origin: seq<nat>)
    requires |written| == |sections| && |origin| == |completed|
    requires forall j :: 0 <= j < |completed| ==>
      origin[j] < |sections| && completed[j] == sections[origin[j]].(content := written[origin[j]])
    requires forall i :: 0 <= i < |sections| ==> i in origin
    requires forall i, k :: 0 <= i < k < |sections| ==> sections[i].name != sections[k].name
    ensures |MergeCompleted(sections, completed)| == |sections|
    ensures forall i :: 0 <= i < |sections| ==> MergeCompleted(sections, completed)[i].content == written[i]
  {
    forall i | 0 <= i < |sections|
      ensures MergeCompleted(sections, completed)[i].content == written[i]
    {
      var name := sections[i].name;
      assert i in origin;
      var j :| 0 <= j < |origin| && origin[j] == i;
      assert completed[j].name == name;
      CompiledSection(sections, completed, i);
      var last := LastNamed(completed, name).value;
      assert sections[origin[last]].name == name;
      assert origin[last] == i;
    }
  }

  /**
   * A run that reaches the compile step: every plan section is finished exactly once, a
   * research section by its subgraph, which publishes the section with the text of its last
   * round, and any other section by `write_final_sections` for its task. The updates arrive
   * interleaved in any order (`origin[k]` is the plan index of the k-th update); the reducer
   * collects them and the merge gives every plan section the text that finished it.
   */
  lemma {:induction false} FinishedSectionsReachCompile(sections: seq<Section>, written: seq<string>,
                                                        topic: string, context: string,
                                                        updates: seq<seq<Section>>, origin: seq<nat>)
    requires |written| == |sections| && |origin| == |updates|
    requires forall k :: 0 <= k < |updates| ==> origin[k] < |sections|
    requires forall k :: 0 <= k < |updates| && sections[origin[k]].research ==>
      updates[k] == [sections[origin[k]].(content := written[origin[k]])]
    requires forall k :: 0 <= k < |updates| && !sections[origin[k]].research ==>
      updates[k] == WriteFinalSections(FinalWritingTask(topic, sections[origin[k]], context), written[origin[k]]).completedSections
    requires forall i :: 0 <= i < |sections| ==> i in origin
    requires forall i, k :: 0 <= i < k < |sections| ==> sections[i].name != sections[k].name
    ensures |MergeCompleted(sections, ApplyUpdates([], updates))| == |sections|
    ensures forall i :: 0 <= i < |sections| ==> MergeCompleted(sections, ApplyUpdates([], updates))[i].content == written[i]
  {
    var completed := ApplyUpdates([], updates);
    forall k | 0 <= k < |updates|
      ensures |updates[k]| == 1
      ensures updates[k][0] == sections[origin[k]].(content := written[origin[k]])
    {
      if !sections[origin[k]].research {
        var out := WriteFinalSections(FinalWritingTask(topic, sections[origin[k]], context), written[origin[k]]);
        assert updates[k] == out.completedSections;
      }
    }
    if |updates| > 0 {
      SingletonUpdatesLandInOrder([], updates, 0);
    } else {
      ApplyUpdatesAppends([], updates);
    }
    forall k | 0 <= k < |updates|
      ensures completed[k] == sections[origin[k]].(content := written[origin[k]])
    {
      SingletonUpdatesLandInOrder([], updates, k);
    }
    EverySectionGetsItsContent(sections, written, completed, origin);
  }
}
