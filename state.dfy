/**
 * The records that flow through the report pipeline (backend/state.py) and the
 * one behaviour that file defines: `completed_sections` is merged with
 * `operator.add`, i.e. list concatenation.
 */
module State {
  import opened Wrappers

  /** One section of the report plan. `research` says whether it is researched on the web. */
  datatype Section = Section(name: string, description: string, research: bool, content: string)

  /** Text of at least one character, the `min_length=1` constraint on a query. */
  type NonEmptyString = s: string | |s| >= 1 witness "?"

  /** A web-search query; validation rejects an empty text. */
  datatype SearchQuery = SearchQuery(searchQuery: NonEmptyString)

  /**
   * A JSON object left as a plain dict, as a model answers when it is not parsed into a
   * record. Only its keys are kept: reading a record attribute such as `.name` or
   * `.search_query` off a dict raises `AttributeError` whatever it holds.
   */
  datatype RawObject = RawObject(keys: set<string>)

  /** An element of a list a node passes on: a validated record, or a raw object from a dict answer. */
  datatype Entry<T> = Typed(value: T) | Raw(object: RawObject)

  function TypedEntries<T>(xs: seq<T>): seq<Entry<T>>
  {
    seq(|xs|, k requires 0 <= k < |xs| => Typed(xs[k]))
  }

  function RawEntries<T>(objects: seq<RawObject>): seq<Entry<T>>
  {
    seq(|objects|, k requires 0 <= k < |objects| => Raw(objects[k]))
  }

  /**
   * Reading a record attribute off every entry in order: the records themselves, or the
   * `AttributeError` (with message `error`) raised at the first raw object.
   */
  function Validated<T>(entries: seq<Entry<T>>, error: string): (r: Result<seq<T>, string>)
    ensures r.Failure? <==> exists k :: 0 <= k < |entries| && entries[k].Raw?
    ensures r.Failure? ==> r.error == error
    ensures r.Success? ==> |r.value| == |entries| && forall k :: 0 <= k < |entries| ==> entries[k] == Typed(r.value[k])
  {
    if entries == [] then Success([])
    else match entries[0]
      case Raw(_) => Failure(error)
      case Typed(x) =>
        match Validated(entries[1..], error)
        case Failure(e) =>
          assert exists k :: 0 <= k < |entries| - 1 && entries[1..][k].Raw?;
          Failure(e)
        case Success(rest) => Success([x] + rest)
  }

  /** Validated records read back unchanged. */
  lemma ValidatedTypedEntries<T>(xs: seq<T>, error: string)
    ensures Validated(TypedEntries(xs), error) == Success(xs)
  {
    var r := Validated(TypedEntries(xs), error);
    assert r.Success? && |r.value| == |xs|;
    forall k | 0 <= k < |xs|
      ensures r.value[k] == xs[k]
    {
      assert TypedEntries(xs)[k] == Typed(r.value[k]);
    }
    assert r.value == xs;
  }

  /** A non-empty list of raw objects raises on its first element. */
  lemma ValidatedRawEntries<T>(objects: seq<RawObject>, error: string)
    requires |objects| > 0
    ensures Validated(RawEntries<T>(objects), error) == Failure(error)
  {
    assert RawEntries<T>(objects)[0].Raw?;
  }

  datatype Queries = Queries(queries: seq<SearchQuery>)

  datatype Grade = Pass | Fail

  /** The reflection model's structured verdict: a grade that is "pass" or "fail" and follow-up queries. */
  datatype Feedback = Feedback(grade: Grade, followUpQueries: seq<SearchQuery>)

  /** The literal string a `Grade` stands for. */
  function GradeText(g: Grade): (t: string)
    ensures t == "pass" || t == "fail"
    ensures (t == "pass") <==> g == Pass
  {
    match g
    case Pass => "pass"
    case Fail => "fail"
  }

  /** Output of the whole pipeline: only the final report. */
  datatype ReportStateOutput = ReportStateOutput(finalReport: string)

  datatype ReportState = ReportState(
    topic: string,
    feedbackOnReportPlan: string,
    sections: seq<Section>,
    completedSections: seq<Section>,
    reportSectionsFromResearch: string,
    finalReport: string)

  datatype SectionState = SectionState(
    topic: string,
    section: Section,
    searchIterations: int,
    searchQueries: seq<SearchQuery>,
    sourceStr: string,
    reportSectionsFromResearch: string,
    completedSections: seq<Section>)

  datatype SectionOutputState = SectionOutputState(completedSections: seq<Section>)

  /** The `operator.add` reducer on `completed_sections`. */
  function AddCompleted(current: seq<Section>, update: seq<Section>): (r: seq<Section>)
    ensures |r| == |current| + |update|
    ensures r[..|current|] == current
    ensures r[|current|..] == update
  {
    current + update
  }

  /** Concatenation of a list of updates, in order. */
  function Flatten(updates: seq<seq<Section>>): seq<Section>
  {
    if updates == [] then [] else updates[0] + Flatten(updates[1..])
  }

  /** Applies the reducer to each update in arrival order. */
  function ApplyUpdates(current: seq<Section>, updates: seq<seq<Section>>): seq<Section>
    decreases |updates|
  {
    if updates == [] then current else ApplyUpdates(AddCompleted(current, updates[0]), updates[1..])
  }

  /**
   * Whatever updates arrive, the channel ends up as the initial value followed by every
   * update in arrival order: nothing earlier is ever dropped or reordered.
   */
  lemma {:induction false} ApplyUpdatesAppends(current: seq<Section>, updates: seq<seq<Section>>)
    ensures ApplyUpdates(current, updates) == current + Flatten(updates)
    ensures ApplyUpdates(current, updates)[..|current|] == current
    decreases |updates|
  {
    if updates != [] {
      ApplyUpdatesAppends(current + updates[0], updates[1..]);
      assert current + updates[0] + Flatten(updates[1..]) == current + Flatten(updates);
    }
  }

  /** Each update of one element (one finished section per branch) lands at its own arrival index. */
  lemma {:induction false} SingletonUpdatesLandInOrder(current: seq<Section>, updates: seq<seq<Section>>, k: nat)
    requires forall j :: 0 <= j < |updates| ==> |updates[j]| == 1
    requires k < |updates|
    ensures |ApplyUpdates(current, updates)| == |current| + |updates|
    ensures ApplyUpdates(current, updates)[|current| + k] == updates[k][0]
  {
    ApplyUpdatesAppends(current, updates);
    FlattenSingletons(updates, k);
  }

  lemma {:induction false} FlattenSingletons(updates: seq<seq<Section>>, k: nat)
    requires forall j :: 0 <= j < |updates| ==> |updates[j]| == 1
    requires k < |updates|
    ensures |Flatten(updates)| == |updates|
    ensures Flatten(updates)[k] == updates[k][0]
  {
    if k == 0 {
      FlattenLength(updates[1..]);
    } else {
      FlattenSingletons(updates[1..], k - 1);
    }
  }

  lemma {:induction false} FlattenLength(updates: seq<seq<Section>>)
    requires forall j :: 0 <= j < |updates| ==> |updates[j]| == 1
    ensures |Flatten(updates)| == |updates|
  {
    if updates != [] {
      FlattenLength(updates[1..]);
    }
  }
}
