/**
 * The per-section research sub-graph of backend/graph.py: `generate_queries`,
 * `search_web` and `write_section`, wired START -> generate_queries -> search_web
 * -> write_section, with `write_section` routing either to END or back to
 * `search_web`. The language model, the reflection model and the web search are opaque:
 * their answers are inputs.
 */
module GraphResearch {
  import opened Wrappers
  import opened State

  // ---------------------------------------------------------------- edges

  datatype SubNode = SubStart | GenerateQueries | SearchWeb | WriteSection | SubEnd

  /** The static edges of the sub-graph. */
  predicate StaticEdge(a: SubNode, b: SubNode)
  {
    || (a == SubStart && b == GenerateQueries)
    || (a == GenerateQueries && b == SearchWeb)
    || (a == SearchWeb && b == WriteSection)
  }

  /** An edge of the sub-graph, together with the two targets `write_section`'s command may name. */
  predicate SubgraphStep(a: SubNode, b: SubNode)
  {
    StaticEdge(a, b) || (a == WriteSection && (b == SubEnd || b == SearchWeb))
  }

  predicate IsSubgraphPath(path: seq<SubNode>)
  {
    forall k :: 0 <= k < |path| - 1 ==> SubgraphStep(path[k], path[k + 1])
  }

  function Count(path: seq<SubNode>, n: SubNode): nat
  {
    if path == [] then 0 else (if path[0] == n then 1 else 0) + Count(path[1..], n)
  }

  // ---------------------------------------------------------------- generate_queries

  /**
   * What the query writer answered: a dict read with `.get("queries", [])`, whose entries are
   * raw objects, or a `Queries` object holding validated queries.
   */
  datatype QueriesReply = QueriesDict(queries: Option<seq<RawObject>>) | QueriesObject(value: Queries)

  /** `generate_queries`: the `search_queries` it stores, entry by entry. */
  function GenerateQueriesUpdate(reply: QueriesReply): (qs: seq<Entry<SearchQuery>>)
    ensures reply.QueriesObject? ==>
      |qs| == |reply.value.queries| && forall k :: 0 <= k < |qs| ==> qs[k] == Typed(reply.value.queries[k])
    ensures reply.QueriesDict? && reply.queries.None? ==> qs == []
    ensures reply.QueriesDict? && reply.queries.Some? ==>
      |qs| == |reply.queries.value| && forall k :: 0 <= k < |qs| ==> qs[k] == Raw(reply.queries.value[k])
  {
    match reply
    case QueriesDict(q) => RawEntries(q.GetOr([]))
    case QueriesObject(v) => TypedEntries(v.queries)
  }

  /** What the first `search_web` raises reading `.search_query` off a raw object. */
  const QueryAttributeError := "'dict' object has no attribute 'search_query'"

  /**
   * What the first `search_web` of a section makes of the stored entries: the validated
   * queries, or the error it raises. Later rounds get their queries from `write_section`,
   * which only ever stores validated ones.
   */
  function FirstSearchQueries(entries: seq<Entry<SearchQuery>>): Result<seq<SearchQuery>, string>
  {
    Validated(entries, QueryAttributeError)
  }

  /**
   * An object answer reaches the search intact; a dict answer gets through only when it
   * lists no queries, and otherwise makes the first search raise.
   */
  lemma QueryReplyAtFirstSearch(reply: QueriesReply)
    ensures reply.QueriesObject? ==> FirstSearchQueries(GenerateQueriesUpdate(reply)) == Success(reply.value.queries)
    ensures reply.QueriesDict? ==>
      (FirstSearchQueries(GenerateQueriesUpdate(reply)).Failure? <==> reply.queries.Some? && |reply.queries.value| > 0)
    ensures reply.QueriesDict? && FirstSearchQueries(GenerateQueriesUpdate(reply)).Success? ==>
      FirstSearchQueries(GenerateQueriesUpdate(reply)).value == []
  {
    match reply
    case QueriesObject(v) =>
      ValidatedTypedEntries(v.queries, QueryAttributeError);
    case QueriesDict(q) =>
      if q.Some? && |q.value| > 0 {
        ValidatedRawEntries<SearchQuery>(q.value, QueryAttributeError);
      } else {
        assert GenerateQueriesUpdate(reply) == [];
      }
  }

  // ---------------------------------------------------------------- search_web

  /** The query list of `search_web` with its `None` entries removed, the rest in order. */
  function DropNone(xs: seq<Option<string>>): seq<string>
  {
    if xs == [] then []
    else (if xs[0].Some? then [xs[0].value] else []) + DropNone(xs[1..])
  }

  /** The `search_query` text of each query, in order, as `search_web` lists them; a typed query always has its text. */
  function QueryTexts(queries: seq<SearchQuery>): seq<Option<string>>
  {
    seq(|queries|, k requires 0 <= k < |queries| => Some(queries[k].searchQuery))
  }

  /** The query list `search_web` hands to the search. */
  function QueryList(queries: seq<SearchQuery>): seq<string>
  {
    DropNone(QueryTexts(queries))
  }

  /** Dropping `None` keeps exactly the present strings, each once, in their original order. */
  lemma {:induction false} DropNoneKeepsPresentInOrder(xs: seq<Option<string>>, i: nat)
    requires i < |xs| && xs[i].Some?
    ensures |DropNone(xs[..i])| < |DropNone(xs)|
    ensures DropNone(xs)[|DropNone(xs[..i])|] == xs[i].value
  {
    DropNoneSplit(xs[..i], xs[i..]);
    assert xs == xs[..i] + xs[i..];
    assert xs[i..][0] == xs[i];
  }

  lemma {:induction false} DropNoneSplit(a: seq<Option<string>>, b: seq<Option<string>>)
    ensures DropNone(a + b) == DropNone(a) + DropNone(b)
  {
    if a == [] {
      assert a + b == b;
    } else {
      DropNoneSplit(a[1..], b);
      var head := if a[0].Some? then [a[0].value] else [];
      assert (a + b)[0] == a[0];
      assert (a + b)[1..] == a[1..] + b;
      assert DropNone(a + b) == head + DropNone(a[1..] + b);
      assert DropNone(a) == head + DropNone(a[1..]);
    }
  }

  /** Dropping `None` loses only `None`s: the result is as long as the number of present entries. */
  lemma {:induction false} DropNoneAllPresent(xs: seq<Option<string>>)
    requires forall k :: 0 <= k < |xs| ==> xs[k].Some?
    ensures |DropNone(xs)| == |xs|
    ensures forall k :: 0 <= k < |xs| ==> DropNone(xs)[k] == xs[k].value
  {
    if xs != [] {
      DropNoneAllPresent(xs[1..]);
    }
  }

  /** The filter never removes a validated query: the search gets every query's non-empty text, in order. */
  lemma QueryListKeepsEveryQuery(queries: seq<SearchQuery>)
    ensures |QueryList(queries)| == |queries|
    ensures forall k :: 0 <= k < |queries| ==> QueryList(queries)[k] == queries[k].searchQuery
    ensures forall k :: 0 <= k < |queries| ==> |QueryList(queries)[k]| >= 1
  {
    DropNoneAllPresent(QueryTexts(queries));
  }

  /** The state update of `search_web`, with the query list the search was called with. */
  datatype SearchWebUpdate = SearchWebUpdate(queryList: seq<string>, sourceStr: string, searchIterations: int)

  /** `search_web`; `sourceStr` is what the opaque search returned for `QueryList(...)`. */
  function SearchWebStep(state: SectionState, sourceStr: string): (u: SearchWebUpdate)
    ensures u.searchIterations == state.searchIterations + 1
    ensures u.sourceStr == sourceStr
  {
    SearchWebUpdate(QueryList(state.searchQueries), sourceStr, state.searchIterations + 1)
  }

  // ---------------------------------------------------------------- write_section

  /**
   * What the reflection model answered: a dict (read with `.get("grade")`; `getattr` finds no
   * `follow_up_queries` attribute on it) or a `Feedback` object.
   */
  datatype ReflectionReply = GradeDict(grade: Option<string>) | GradeObject(feedback: Feedback)

  /** The stop rule of `write_section`. */
  predicate StopResearch(reply: ReflectionReply, searchIterations: int, maxSearchDepth: int)
  {
    (reply.GradeDict? && reply.grade == Some("pass")) || searchIterations >= maxSearchDepth
  }

  /**
   * The follow-up queries `write_section` sends back to `search_web`: those of a `Feedback`
   * object, and none for a dict reply, which has no such attribute.
   */
  function FollowUpQueries(reply: ReflectionReply): (qs: seq<SearchQuery>)
    ensures reply.GradeDict? ==> qs == []
  {
    match reply
    case GradeDict(_) => []
    case GradeObject(f) => f.followUpQueries
  }

  /** The `Command` `write_section` returns: publish and go to END, or research more. */
  datatype SectionCommand =
    | PublishSection(completedSections: seq<Section>)
    | ResearchMore(searchQueries: seq<SearchQuery>, section: Section)
  {
    function Goto(): SubNode
    {
      if PublishSection? then SubEnd else SearchWeb
    }
  }

  /** `write_section`; `content` is what the writer model produced for the section. */
  function WriteSectionStep(state: SectionState, content: string, reply: ReflectionReply, maxSearchDepth: int): (cmd: SectionCommand)
    ensures cmd.PublishSection? <==> StopResearch(reply, state.searchIterations, maxSearchDepth)
    ensures cmd.PublishSection? ==> cmd.completedSections == [state.section.(content := content)]
    ensures cmd.ResearchMore? ==>
      cmd.section == state.section.(content := content) && cmd.searchQueries == FollowUpQueries(reply)
    ensures SubgraphStep(WriteSection, cmd.Goto())
  {
    var section := state.section.(content := content);
    if StopResearch(reply, state.searchIterations, maxSearchDepth) then PublishSection([section])
    else ResearchMore(FollowUpQueries(reply), section)
  }

  /**
   * A reflection model that answers with a `Feedback` object never ends the loop by its grade:
   * even a "pass" sends the section back to `search_web` while the depth is not reached.
   */
  lemma ObjectPassDoesNotStop(state: SectionState, content: string, f: Feedback, maxSearchDepth: int)
    requires GradeText(f.grade) == "pass" && state.searchIterations < maxSearchDepth
    ensures WriteSectionStep(state, content, GradeObject(f), maxSearchDepth) == ResearchMore(f.followUpQueries, state.section.(content := content))
  {
  }

  // ---------------------------------------------------------------- the loop

  /** Answers of the opaque collaborators, by the value of `search_iterations` when they are asked. */
  datatype ResearchOracle = ResearchOracle(
    search: seq<string> -> string,
    write: int -> string,
    grade: int -> ReflectionReply)

  datatype ResearchRun = ResearchRun(completed: Section, rounds: nat, trace: seq<SubNode>)

  /** The most search rounds a loop entered with `searchIterations` done can take. */
  function RoundBound(searchIterations: int, maxSearchDepth: int): nat
  {
    if maxSearchDepth - searchIterations >= 1 then maxSearchDepth - searchIterations else 1
  }

  /**
   * The search_web -> write_section loop as the runtime drives it, from `state` until
   * `write_section` goes to END. `rounds` counts `search_web` runs, `trace` the nodes visited.
   */
  function ResearchLoop(state: SectionState, maxSearchDepth: int, oracle: ResearchOracle): (run: ResearchRun)
    ensures 1 <= run.rounds <= RoundBound(state.searchIterations, maxSearchDepth)
    ensures run.completed == state.section.(content := oracle.write(state.searchIterations + run.rounds))
    ensures StopResearch(oracle.grade(state.searchIterations + run.rounds), state.searchIterations + run.rounds, maxSearchDepth)
    ensures forall it :: state.searchIterations < it < state.searchIterations + run.rounds ==>
      !StopResearch(oracle.grade(it), it, maxSearchDepth)
    ensures |run.trace| >= 3 && run.trace[0] == SearchWeb && run.trace[|run.trace| - 1] == SubEnd
    decreases if maxSearchDepth > state.searchIterations then maxSearchDepth - state.searchIterations else 0
  {
    var u := SearchWebStep(state, oracle.search(QueryList(state.searchQueries)));
    var searched := state.(sourceStr := u.sourceStr, searchIterations := u.searchIterations);
    var it := searched.searchIterations;
    match WriteSectionStep(searched, oracle.write(it), oracle.grade(it), maxSearchDepth)
    case PublishSection(done) => ResearchRun(done[0], 1, [SearchWeb, WriteSection, SubEnd])
    case ResearchMore(queries, section) =>
      var rest := ResearchLoop(searched.(searchQueries := queries, section := section), maxSearchDepth, oracle);
      ResearchRun(rest.completed, rest.rounds + 1, [SearchWeb, WriteSection] + rest.trace)
  }

  /** How the sub-graph for one section ended: its output and loop run, or the error raised and the nodes visited. */
  datatype SubgraphResult =
    | Finished(output: SectionOutputState, run: ResearchRun)
    | SubgraphRaised(error: string, trace: seq<SubNode>)

  /** The whole sub-graph for one dispatched section, from START to END or to the error. */
  function RunSectionSubgraph(topic: string, section: Section, searchIterations: int,
                              queries: QueriesReply, maxSearchDepth: int, oracle: ResearchOracle): (r: SubgraphResult)
    ensures r.SubgraphRaised? <==> FirstSearchQueries(GenerateQueriesUpdate(queries)).Failure?
    ensures r.SubgraphRaised? ==> r.error == QueryAttributeError && r.trace == [SubStart, GenerateQueries, SearchWeb]
    ensures r.Finished? ==> |r.output.completedSections| == 1 && r.output.completedSections[0] == r.run.completed
  {
    match FirstSearchQueries(GenerateQueriesUpdate(queries))
    case Failure(e) => SubgraphRaised(e, [SubStart, GenerateQueries, SearchWeb])
    case Success(qs) =>
      var initial := SectionState(topic, section, searchIterations, qs, "", "", []);
      var run := ResearchLoop(initial, maxSearchDepth, oracle);
      Finished(SectionOutputState([run.completed]), run.(trace := [SubStart, GenerateQueries] + run.trace))
  }

  lemma {:induction false} CountConcat(a: seq<SubNode>, b: seq<SubNode>, n: SubNode)
    ensures Count(a + b, n) == Count(a, n) + Count(b, n)
  {
    if a == [] {
      assert a + b == b;
    } else {
      CountConcat(a[1..], b, n);
      assert (a + b)[0] == a[0];
      assert (a + b)[1..] == a[1..] + b;
    }
  }

  /** Putting `prefix` in front of a path keeps it a path when the seam is an edge. */
  lemma PrependPath(prefix: seq<SubNode>, path: seq<SubNode>)
    requires IsSubgraphPath(prefix) && IsSubgraphPath(path)
    requires |prefix| > 0 && |path| > 0 && SubgraphStep(prefix[|prefix| - 1], path[0])
    ensures IsSubgraphPath(prefix + path)
  {
    var full := prefix + path;
    forall k | 0 <= k < |full| - 1
      ensures SubgraphStep(full[k], full[k + 1])
    {
      if k >= |prefix| {
        assert full[k] == path[k - |prefix|] && full[k + 1] == path[k + 1 - |prefix|];
      }
    }
  }

  /** The nodes the loop visits follow the sub-graph's edges, and `search_web` runs once per round. */
  lemma {:induction false} LoopFollowsEdges(state: SectionState, maxSearchDepth: int, oracle: ResearchOracle)
    ensures IsSubgraphPath(ResearchLoop(state, maxSearchDepth, oracle).trace)
    ensures Count(ResearchLoop(state, maxSearchDepth, oracle).trace, SearchWeb) == ResearchLoop(state, maxSearchDepth, oracle).rounds
    decreases if maxSearchDepth > state.searchIterations then maxSearchDepth - state.searchIterations else 0
  {
    var u := SearchWebStep(state, oracle.search(QueryList(state.searchQueries)));
    var searched := state.(sourceStr := u.sourceStr, searchIterations := u.searchIterations);
    var it := searched.searchIterations;
    var run := ResearchLoop(state, maxSearchDepth, oracle);
    var step := [SearchWeb, WriteSection];
    match WriteSectionStep(searched, oracle.write(it), oracle.grade(it), maxSearchDepth)
    case PublishSection(done) =>
      assert run.trace == step + [SubEnd];
      PrependPath(step, [SubEnd]);
      CountConcat(step, [SubEnd], SearchWeb);
    case ResearchMore(queries, section) =>
      var next := searched.(searchQueries := queries, section := section);
      LoopFollowsEdges(next, maxSearchDepth, oracle);
      var rest := ResearchLoop(next, maxSearchDepth, oracle);
      assert run.trace == step + rest.trace;
      PrependPath(step, rest.trace);
      CountConcat(step, rest.trace, SearchWeb);
  }

  /** The sub-graph's whole run, from START, is a path of the sub-graph, whether it finishes or raises. */
  lemma SubgraphRunFollowsEdges(topic: string, section: Section, searchIterations: int,
                                queries: QueriesReply, maxSearchDepth: int, oracle: ResearchOracle)
    ensures var r := RunSectionSubgraph(topic, section, searchIterations, queries, maxSearchDepth, oracle);
      r.SubgraphRaised? ==> IsSubgraphPath(r.trace)
    ensures var r := RunSectionSubgraph(topic, section, searchIterations, queries, maxSearchDepth, oracle);
      r.Finished? ==>
        IsSubgraphPath(r.run.trace) && r.run.trace[..2] == [SubStart, GenerateQueries]
        && r.run.trace[|r.run.trace| - 1] == SubEnd
        && Count(r.run.trace, SearchWeb) == r.run.rounds
  {
    var r := RunSectionSubgraph(topic, section, searchIterations, queries, maxSearchDepth, oracle);
    var head := [SubStart, GenerateQueries];
    match FirstSearchQueries(GenerateQueriesUpdate(queries))
    case Failure(e) =>
      assert r.trace == head + [SearchWeb];
      PrependPath(head, [SearchWeb]);
    case Success(qs) =>
      var initial := SectionState(topic, section, searchIterations, qs, "", "", []);
      LoopFollowsEdges(initial, maxSearchDepth, oracle);
      var loop := ResearchLoop(initial, maxSearchDepth, oracle);
      assert r.run == loop.(trace := head + loop.trace);
      PrependPath(head, loop.trace);
      CountConcat(head, loop.trace, SearchWeb);
      assert (head + loop.trace)[..2] == head;
  }

  /**
   * Depth bound: a section dispatched by `human_feedback` (with `search_iterations = 0`)
   * is searched at least once and at most `max_search_depth` times (once when the depth is below 1).
   */
  lemma DispatchedSectionDepthBound(topic: string, section: Section, queries: QueriesReply,
                                    maxSearchDepth: int, oracle: ResearchOracle)
    ensures var r := RunSectionSubgraph(topic, section, 0, queries, maxSearchDepth, oracle);
      r.Finished? ==>
        1 <= r.run.rounds && (maxSearchDepth >= 1 ==> r.run.rounds <= maxSearchDepth)
        && (maxSearchDepth < 1 ==> r.run.rounds == 1)
  {
  }

  /** A grade that ends the loop by itself. */
  predicate DictPass(reply: ReflectionReply)
  {
    reply.GradeDict? && reply.grade == Some("pass")
  }

  /**
   * Unless the reflection model answers with a dict whose grade is "pass", the loop runs to the full
   * depth; in particular a reflection model answering with `Feedback` objects never cuts it short.
   */
  lemma {:induction false} NoDictPassRunsFullDepth(state: SectionState, maxSearchDepth: int, oracle: ResearchOracle)
    requires forall it: int :: !DictPass(oracle.grade(it))
    ensures ResearchLoop(state, maxSearchDepth, oracle).rounds == RoundBound(state.searchIterations, maxSearchDepth)
    decreases if maxSearchDepth > state.searchIterations then maxSearchDepth - state.searchIterations else 0
  {
    var u := SearchWebStep(state, oracle.search(QueryList(state.searchQueries)));
    var searched := state.(sourceStr := u.sourceStr, searchIterations := u.searchIterations);
    var it := searched.searchIterations;
    assert !DictPass(oracle.grade(it));
    match WriteSectionStep(searched, oracle.write(it), oracle.grade(it), maxSearchDepth)
    case PublishSection(done) =>
    case ResearchMore(queries, section) =>
      NoDictPassRunsFullDepth(searched.(searchQueries := queries, section := section), maxSearchDepth, oracle);
  }

  /** A dict "pass" on the first round ends the loop after one search. */
  lemma FirstRoundDictPassStops(state: SectionState, maxSearchDepth: int, oracle: ResearchOracle)
    requires DictPass(oracle.grade(state.searchIterations + 1))
    ensures ResearchLoop(state, maxSearchDepth, oracle).rounds == 1
    ensures ResearchLoop(state, maxSearchDepth, oracle).completed
         == state.section.(content := oracle.write(state.searchIterations + 1))
  {
  }
}
