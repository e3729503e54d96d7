/**
 * The deterministic parts of planning in backend/graph.py: the planner's JSON
 * extraction with its fixed fallback plan (`generate_report_plan`) and the plan
 * summary `human_feedback` renders. Model calls, the fenced-block regular
 * expression and `json.loads` are inputs.
 */
module GraphPlan {
  import opened Wrappers
  import opened Strings
  import opened State

  // ---------------------------------------------------------------- planning search

  /** The query list the planning search is run with; the generated queries are overwritten. */
  const PlanningQueries: seq<string> := ["query1", "query2"]

  // ---------------------------------------------------------------- JSON extraction

  function IndexOf(s: string, c: char): (r: Option<nat>)
    ensures r.None? <==> forall k :: 0 <= k < |s| ==> s[k] != c
    ensures r.Some? ==> r.value < |s| && s[r.value] == c && forall k :: 0 <= k < r.value ==> s[k] != c
  {
    if s == [] then None
    else if s[0] == c then Some(0)
    else match IndexOf(s[1..], c)
      case None => None
      case Some(i) => Some(i + 1)
  }

  function LastIndexOf(s: string, c: char): (r: Option<nat>)
    ensures r.None? <==> forall k :: 0 <= k < |s| ==> s[k] != c
    ensures r.Some? ==> r.value < |s| && s[r.value] == c && forall k :: r.value < k < |s| ==> s[k] != c
  {
    if s == [] then None
    else if s[|s| - 1] == c then Some(|s| - 1)
    else LastIndexOf(s[..|s| - 1], c)
  }

  /** Some `{` comes before some `}`. */
  predicate HasBracePair(s: string)
  {
    exists i, j :: 0 <= i < j < |s| && s[i] == '{' && s[j] == '}'
  }

  /**
   * The match of `(\{[\s\S]*\})`: from the first `{` to the last `}` after it, when there is one.
   */
  function BraceSpan(s: string): (r: Option<string>)
    ensures r.None? <==> !HasBracePair(s)
    ensures r.Some? ==> |r.value| >= 2 && r.value[0] == '{' && r.value[|r.value| - 1] == '}'
    ensures r.Some? ==> r.value == s[IndexOf(s, '{').value..LastIndexOf(s, '}').value + 1]
  {
    var i := IndexOf(s, '{');
    var j := LastIndexOf(s, '}');
    if i.Some? && j.Some? && i.value < j.value then Some(s[i.value..j.value + 1]) else None
  }

  const NoJsonError := "No JSON object found in the response content."

  /** The JSON text the planner's answer is read from: the fenced block first, else the brace span. */
  function PlannerJson(fenced: Option<string>, content: string): (r: Result<string, string>)
    ensures r.Failure? <==> fenced.None? && !HasBracePair(content)
    ensures r.Failure? ==> r.error == NoJsonError
    ensures fenced.Some? ==> r == Success(fenced.value)
  {
    if fenced.Some? then Success(fenced.value)
    else match BraceSpan(content)
      case Some(b) => Success(b)
      case None => Failure(NoJsonError)
  }

  /** The plan used when the planner's JSON cannot be turned into sections. */
  function FallbackPlan(topic: string): (plan: seq<Section>)
    ensures |plan| == 3
    ensures forall k :: 0 <= k < 3 ==> plan[k].content == ""
    ensures plan[1].research && !plan[0].research && !plan[2].research
  {
    [ Section("Introduction", "Introduction to the topic", false, ""),
      Section("Main Content", "Primary information about " + topic, true, ""),
      Section("Conclusion", "Summary of findings", false, "") ]
  }

  /**
   * The Groq branch of `generate_report_plan`. `fenced` is the capture of the fenced-block
   * expression on the answer `content`; `parse` stands for `json.loads` plus building the
   * `Section`s, `None` when either raises. A `Failure` is the `ValueError` the node raises.
   */
  function GroqPlan(topic: string, fenced: Option<string>, content: string,
                    parse: string -> Option<seq<Section>>): (r: Result<seq<Section>, string>)
    ensures r.Failure? <==> fenced.None? && !HasBracePair(content)
    ensures r.Failure? ==> r.error == NoJsonError
    ensures r.Success? && parse(PlannerJson(fenced, content).value).None? ==> r.value == FallbackPlan(topic)
    ensures r.Success? && parse(PlannerJson(fenced, content).value).Some? ==>
      r.value == parse(PlannerJson(fenced, content).value).value
  {
    match PlannerJson(fenced, content)
    case Failure(e) => Failure(e)
    case Success(json) =>
      match parse(json)
      case None => Success(FallbackPlan(topic))
      case Some(sections) => Success(sections)
  }

  /**
   * What a structured-output planner answered: a dict read with `.get("sections", [])`, whose
   * entries are raw objects, or a `Sections` object holding validated sections.
   */
  datatype PlannerReply = PlanDict(sections: Option<seq<RawObject>>) | PlanObject(value: seq<Section>)

  /**
   * What the planner answered, for the provider in use: the capture of the fenced-block
   * expression and the text of a free-text answer, and a structured answer.
   */
  datatype PlannerAnswer = PlannerAnswer(fenced: Option<string>, content: string, structured: PlannerReply)

  /**
   * `generate_report_plan`: the node asks the query writer for `generated`, then overwrites
   * that list with the fixed `PlanningQueries` (backend/graph.py:98), so `generated` is
   * discarded. The planning search runs on `PlanningQueries`, and the planner answers from
   * that search's result. The outcome is the node's `sections` update or the error it raises.
   */
  function GenerateReportPlan(topic: string, plannerProvider: string, generated: Queries,
                              search: seq<string> -> string, planner: string -> PlannerAnswer,
                              parse: string -> Option<seq<Section>>): (r: Result<seq<Entry<Section>>, string>)
    ensures var answer := planner(search(PlanningQueries));
      plannerProvider == "groq" ==>
        && (r.Failure? <==> GroqPlan(topic, answer.fenced, answer.content, parse).Failure?)
        && (r.Failure? ==> r.error == NoJsonError)
        && (r.Success? ==> r.value == TypedEntries(GroqPlan(topic, answer.fenced, answer.content, parse).value))
    ensures plannerProvider != "groq" ==> r.Success?
    ensures var answer := planner(search(PlanningQueries));
      plannerProvider != "groq" && answer.structured.PlanObject? ==> r.value == TypedEntries(answer.structured.value)
    ensures var answer := planner(search(PlanningQueries));
      plannerProvider != "groq" && answer.structured.PlanDict? ==> r.value == RawEntries(answer.structured.sections.GetOr([]))
  {
    var sourceStr := search(PlanningQueries);
    var answer := planner(sourceStr);
    if plannerProvider == "groq" then
      match GroqPlan(topic, answer.fenced, answer.content, parse)
      case Failure(e) => Failure(e)
      case Success(sections) => Success(TypedEntries(sections))
    else match answer.structured
      case PlanDict(raw) => Success(RawEntries(raw.GetOr([])))
      case PlanObject(v) => Success(TypedEntries(v))
  }

  /**
   * The plan depends on the planning search only through its answer for `PlanningQueries`,
   * and not at all on the queries the query writer generated.
   */
  lemma PlanIgnoresGeneratedQueries(topic: string, plannerProvider: string, generated1: Queries, generated2: Queries,
                                    search1: seq<string> -> string, search2: seq<string> -> string,
                                    planner: string -> PlannerAnswer, parse: string -> Option<seq<Section>>)
    requires search1(PlanningQueries) == search2(PlanningQueries)
    ensures GenerateReportPlan(topic, plannerProvider, generated1, search1, planner, parse)
         == GenerateReportPlan(topic, plannerProvider, generated2, search2, planner, parse)
  {
  }

  /** What `human_feedback` raises reading `.name` off a raw planned section. */
  const SectionAttributeError := "'dict' object has no attribute 'name'"

  /** The plan as `human_feedback` reads it: the validated sections, or the error it raises. */
  function FeedbackSections(plan: seq<Entry<Section>>): Result<seq<Section>, string>
  {
    Validated(plan, SectionAttributeError)
  }

  /**
   * Which plans `human_feedback` can read: every plan from the Groq path or a `Sections`
   * object, and a dict answer only when it lists no sections; otherwise the run raises there.
   */
  lemma PlanReachesFeedback(topic: string, plannerProvider: string, generated: Queries,
                            search: seq<string> -> string, planner: string -> PlannerAnswer,
                            parse: string -> Option<seq<Section>>)
    ensures var answer := planner(search(PlanningQueries));
      var r := GenerateReportPlan(topic, plannerProvider, generated, search, planner, parse);
      r.Success? ==>
        (FeedbackSections(r.value).Failure? <==>
           plannerProvider != "groq" && answer.structured.PlanDict?
           && answer.structured.sections.Some? && |answer.structured.sections.value| > 0)
    ensures var answer := planner(search(PlanningQueries));
      var r := GenerateReportPlan(topic, plannerProvider, generated, search, planner, parse);
      plannerProvider == "groq" && r.Success? ==>
        FeedbackSections(r.value) == Success(GroqPlan(topic, answer.fenced, answer.content, parse).value)
  {
    var answer := planner(search(PlanningQueries));
    var r := GenerateReportPlan(topic, plannerProvider, generated, search, planner, parse);
    if r.Success? {
      if plannerProvider == "groq" {
        ValidatedTypedEntries(GroqPlan(topic, answer.fenced, answer.content, parse).value, SectionAttributeError);
      } else {
        match answer.structured
        case PlanObject(v) =>
          ValidatedTypedEntries(v, SectionAttributeError);
        case PlanDict(raw) =>
          if raw.Some? && |raw.value| > 0 {
            ValidatedRawEntries<Section>(raw.value, SectionAttributeError);
          } else {
            assert r.value == [];
          }
      }
    }
  }

  /** Unparseable planner JSON always yields the fixed three-section plan, whatever the text. */
  lemma UnparseableJsonFallsBack(topic: string, content: string, parse: string -> Option<seq<Section>>)
    requires HasBracePair(content)
    requires parse(BraceSpan(content).value).None?
    ensures GroqPlan(topic, None, content, parse) == Success(FallbackPlan(topic))
    ensures var plan := FallbackPlan(topic);
      plan[0].name == "Introduction" && plan[1].name == "Main Content" && plan[2].name == "Conclusion"
  {
  }

  // ---------------------------------------------------------------- plan summary

  function YesNo(b: bool): string
  {
    if b then "Yes" else "No"
  }

  /** One section of the plan summary. */
  function RenderSection(s: Section): string
  {
    "Section: " + s.name + "\nDescription: " + s.description + "\nResearch needed: " + YesNo(s.research) + "\n"
  }

  /** The plan summary of `human_feedback`: the rendered sections joined by "\n\n". */
  function PlanSummary(sections: seq<Section>): string
  {
    Join("\n\n", seq(|sections|, i requires 0 <= i < |sections| => RenderSection(sections[i])))
  }

  /** Reads the research flag back from a rendered section: it ends in "Yes\n". */
  predicate RenderedResearchFlag(block: string)
  {
    |block| >= 4 && block[|block| - 4..] == "Yes\n"
  }

  /** A rendered section begins with its name and reads back its research flag. */
  lemma RenderSectionReadsBack(s: Section)
    ensures |"Section: " + s.name| <= |RenderSection(s)|
    ensures RenderSection(s)[..|"Section: " + s.name|] == "Section: " + s.name
    ensures RenderedResearchFlag(RenderSection(s)) <==> s.research
  {
    var head := "Section: " + s.name + "\nDescription: " + s.description + "\nResearch needed: ";
    var block := RenderSection(s);
    assert block == head + (YesNo(s.research) + "\n");
    assert block[..|"Section: " + s.name|] == ("Section: " + s.name + ("\nDescription: " + s.description + "\nResearch needed: " + YesNo(s.research) + "\n"))[..|"Section: " + s.name|];
    if s.research {
      assert block[|block| - 4..] == "Yes\n";
    } else {
      assert block[|block| - 3..] == "No\n";
      assert block[|block| - 4] == ' ';
    }
  }

  /** The summary shows every plan section, in plan order, with the right "Yes"/"No". */
  lemma PlanSummaryShowsSection(sections: seq<Section>, i: nat)
    requires i < |sections|
    ensures var blocks := seq(|sections|, k requires 0 <= k < |sections| => RenderSection(sections[k]));
      var at := Offset("\n\n", blocks, i);
      at + |blocks[i]| <= |PlanSummary(sections)|
      && PlanSummary(sections)[at..at + |blocks[i]|] == RenderSection(sections[i])
      && (RenderedResearchFlag(PlanSummary(sections)[at..at + |blocks[i]|]) <==> sections[i].research)
  {
    var blocks := seq(|sections|, k requires 0 <= k < |sections| => RenderSection(sections[k]));
    JoinPartAt("\n\n", blocks, i);
    RenderSectionReadsBack(sections[i]);
  }
}
