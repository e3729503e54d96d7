/**
 * How the plan's sections are handed out (backend/graph.py): `human_feedback`
 * sends one research task per section that needs research, and
 * `initiate_final_section_writing` sends one writing task per section that does not.
 */
module GraphDispatch {
  import opened State

  /** Payload of `Send("build_section_with_web_research", ...)`. */
  datatype ResearchTask = ResearchTask(topic: string, section: Section, searchIterations: int)

  /** Payload of `Send("write_final_sections", ...)`. */
  datatype FinalWritingTask = FinalWritingTask(topic: string, section: Section, reportSectionsFromResearch: string)

  /** The comprehension of `human_feedback`: one task per section with `research` set, in plan order. */
  function ResearchTasks(topic: string, sections: seq<Section>): (tasks: seq<ResearchTask>)
    ensures |tasks| <= |sections|
    ensures forall k :: 0 <= k < |tasks| ==>
      tasks[k].topic == topic && tasks[k].searchIterations == 0 && tasks[k].section.research
  {
    if sections == [] then []
    else (if sections[0].research then [ResearchTask(topic, sections[0], 0)] else [])
         + ResearchTasks(topic, sections[1..])
  }

  /** The comprehension of `initiate_final_section_writing`: one task per section without research. */
  function FinalWritingTasks(topic: string, sections: seq<Section>, context: string): (tasks: seq<FinalWritingTask>)
    ensures |tasks| <= |sections|
    ensures forall k :: 0 <= k < |tasks| ==>
      tasks[k].topic == topic && tasks[k].reportSectionsFromResearch == context && !tasks[k].section.research
  {
    if sections == [] then []
    else (if !sections[0].research then [FinalWritingTask(topic, sections[0], context)] else [])
         + FinalWritingTasks(topic, sections[1..], context)
  }

  /** `human_feedback`: the plan is approved unconditionally and every research section is sent out. */
  function HumanFeedback(state: ReportState): (tasks: seq<ResearchTask>)
    ensures forall k :: 0 <= k < |tasks| ==> tasks[k].searchIterations == 0 && tasks[k].topic == state.topic
  {
    ResearchTasks(state.topic, state.sections)
  }

  /** `initiate_final_section_writing`: every non-research section is sent out with the research context. */
  function InitiateFinalSectionWriting(state: ReportState): (tasks: seq<FinalWritingTask>)
    ensures forall k :: 0 <= k < |tasks| ==> tasks[k].reportSectionsFromResearch == state.reportSectionsFromResearch
  {
    FinalWritingTasks(state.topic, state.sections, state.reportSectionsFromResearch)
  }

  function ResearchSections(tasks: seq<ResearchTask>): seq<Section>
  {
    if tasks == [] then [] else [tasks[0].section] + ResearchSections(tasks[1..])
  }

  function FinalSections(tasks: seq<FinalWritingTask>): seq<Section>
  {
    if tasks == [] then [] else [tasks[0].section] + FinalSections(tasks[1..])
  }

  lemma {:induction false} DispatchCounts(topic: string, sections: seq<Section>, context: string)
    ensures |ResearchTasks(topic, sections)| + |FinalWritingTasks(topic, sections, context)| == |sections|
  {
    if sections != [] {
      DispatchCounts(topic, sections[1..], context);
    }
  }

  /** The plan's sections whose `research` flag is `flag`, in plan order. */
  function SectionsFlagged(sections: seq<Section>, flag: bool): seq<Section>
  {
    if sections == [] then []
    else (if sections[0].research == flag then [sections[0]] else []) + SectionsFlagged(sections[1..], flag)
  }

  lemma {:induction false} ResearchTasksCarry(topic: string, sections: seq<Section>)
    ensures ResearchSections(ResearchTasks(topic, sections)) == SectionsFlagged(sections, true)
  {
    if sections != [] {
      ResearchTasksCarry(topic, sections[1..]);
      var r := ResearchTasks(topic, sections[1..]);
      if sections[0].research {
        var t := ResearchTask(topic, sections[0], 0);
        assert ResearchTasks(topic, sections) == [t] + r;
        assert ([t] + r)[1..] == r;
        assert ResearchSections([t] + r) == [sections[0]] + ResearchSections(r);
      } else {
        assert ResearchTasks(topic, sections) == [] + r == r;
      }
    }
  }

  lemma {:induction false} FinalWritingTasksCarry(topic: string, sections: seq<Section>, context: string)
    ensures FinalSections(FinalWritingTasks(topic, sections, context)) == SectionsFlagged(sections, false)
  {
    if sections != [] {
      FinalWritingTasksCarry(topic, sections[1..], context);
      var f := FinalWritingTasks(topic, sections[1..], context);
      if !sections[0].research {
        var t := FinalWritingTask(topic, sections[0], context);
        assert FinalWritingTasks(topic, sections, context) == [t] + f;
        assert ([t] + f)[1..] == f;
        assert FinalSections([t] + f) == [sections[0]] + FinalSections(f);
      } else {
        assert FinalWritingTasks(topic, sections, context) == [] + f == f;
      }
    }
  }

  lemma {:induction false} FlaggedPartition(sections: seq<Section>)
    ensures multiset(SectionsFlagged(sections, true)) + multiset(SectionsFlagged(sections, false)) == multiset(sections)
  {
    if sections != [] {
      FlaggedPartition(sections[1..]);
      assert sections == [sections[0]] + sections[1..];
    }
  }

  /**
   * Every plan section is dispatched exactly once: the two fan-outs together carry
   * each section of the plan as many times as it occurs in the plan.
   */
  lemma DispatchedExactlyOnce(topic: string, sections: seq<Section>, context: string)
    ensures |ResearchTasks(topic, sections)| + |FinalWritingTasks(topic, sections, context)| == |sections|
    ensures multiset(ResearchSections(ResearchTasks(topic, sections)))
          + multiset(FinalSections(FinalWritingTasks(topic, sections, context)))
         == multiset(sections)
  {
    DispatchCounts(topic, sections, context);
    ResearchTasksCarry(topic, sections);
    FinalWritingTasksCarry(topic, sections, context);
    FlaggedPartition(sections);
  }

  lemma {:induction false} ResearchTasksSplit(topic: string, a: seq<Section>, b: seq<Section>)
    ensures ResearchTasks(topic, a + b) == ResearchTasks(topic, a) + ResearchTasks(topic, b)
  {
    if a != [] {
      ResearchTasksSplit(topic, a[1..], b);
      assert (a + b)[0] == a[0];
      assert (a + b)[1..] == a[1..] + b;
    } else {
      assert a + b == b;
    }
  }

  lemma {:induction false} FinalWritingTasksSplit(topic: string, a: seq<Section>, b: seq<Section>, context: string)
    ensures FinalWritingTasks(topic, a + b, context) == FinalWritingTasks(topic, a, context) + FinalWritingTasks(topic, b, context)
  {
    if a != [] {
      FinalWritingTasksSplit(topic, a[1..], b, context);
      assert (a + b)[0] == a[0];
      assert (a + b)[1..] == a[1..] + b;
    } else {
      assert a + b == b;
    }
  }

  /**
   * Plan order: research section `i` of the plan is the task at position "number of research
   * sections before `i`", so an earlier section is always dispatched before a later one.
   */
  lemma ResearchTaskAt(topic: string, sections: seq<Section>, i: nat)
    requires i < |sections| && sections[i].research
    ensures |ResearchTasks(topic, sections[..i])| < |ResearchTasks(topic, sections)|
    ensures ResearchTasks(topic, sections)[|ResearchTasks(topic, sections[..i])|]
         == ResearchTask(topic, sections[i], 0)
  {
    assert sections == sections[..i] + ([sections[i]] + sections[i + 1..]);
    ResearchTasksSplit(topic, sections[..i], [sections[i]] + sections[i + 1..]);
    assert ResearchTasks(topic, [sections[i]] + sections[i + 1..])
        == [ResearchTask(topic, sections[i], 0)] + ResearchTasks(topic, sections[i + 1..]);
  }

  /** The same for the non-research sections and their writing tasks. */
  lemma FinalWritingTaskAt(topic: string, sections: seq<Section>, context: string, i: nat)
    requires i < |sections| && !sections[i].research
    ensures |FinalWritingTasks(topic, sections[..i], context)| < |FinalWritingTasks(topic, sections, context)|
    ensures FinalWritingTasks(topic, sections, context)[|FinalWritingTasks(topic, sections[..i], context)|]
         == FinalWritingTask(topic, sections[i], context)
  {
    assert sections == sections[..i] + ([sections[i]] + sections[i + 1..]);
    FinalWritingTasksSplit(topic, sections[..i], [sections[i]] + sections[i + 1..], context);
    assert FinalWritingTasks(topic, [sections[i]] + sections[i + 1..], context)
        == [FinalWritingTask(topic, sections[i], context)] + FinalWritingTasks(topic, sections[i + 1..], context);
  }

  /** `human_feedback` sends something iff some section needs research. */
  lemma {:induction false} ResearchFanOutEmpty(topic: string, sections: seq<Section>)
    ensures ResearchTasks(topic, sections) == [] <==> forall i :: 0 <= i < |sections| ==> !sections[i].research
  {
    if sections != [] {
      ResearchFanOutEmpty(topic, sections[1..]);
      assert forall i :: 1 <= i < |sections| ==> sections[i] == sections[1..][i - 1];
    }
  }

  /** `initiate_final_section_writing` sends something iff some section needs no research. */
  lemma {:induction false} FinalFanOutEmpty(topic: string, sections: seq<Section>, context: string)
    ensures FinalWritingTasks(topic, sections, context) == [] <==> forall i :: 0 <= i < |sections| ==> sections[i].research
  {
    if sections != [] {
      FinalFanOutEmpty(topic, sections[1..], context);
      assert forall i :: 1 <= i < |sections| ==> sections[i] == sections[1..][i - 1];
    }
  }
}
