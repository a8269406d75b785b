/** The ShopEase analyst agent: it picks an execution mode once, when it is
    built, and answers each query either through the LLM tool-calling executor
    or through a keyword planner that calls exactly one analysis tool and fills
    a fixed response template. */
module Analyst {
  import opened Text
  import KnowledgeBase

  datatype Option<T> = None | Some(value: T)

  /** The tools the agent registers, one constructor per tool. */
  datatype Tool =
    | GetBusinessContext
    | GetDataSummary
    | AnalyzeDeliveryImpact
    | AnalyzeChannelPerformance
    | AnalyzeCityPerformance
    | AnalyzeDemographics
    | AnalyzeEngagement
    | TrainPredictiveModel

  /** The tool list, in registration order. */
  const Registry: seq<Tool> := [
    GetBusinessContext, GetDataSummary, AnalyzeDeliveryImpact, AnalyzeChannelPerformance,
    AnalyzeCityPerformance, AnalyzeDemographics, AnalyzeEngagement, TrainPredictiveModel
  ]

  /** The fixed instruction the executor is built with. */
  const SystemInstruction: string :=
    "You are an expert Data Analyst Agent for ShopEase. "
    + "Your goal is to answer business questions by querying the Knowledge Base for context "
    + "and using the statistical tools for quantitative analysis. "
    + "Always start by checking the business context if the question implies a 'why' or 'problem'. "
    + "When a plot is generated, mention the visualization path in your final answer."

  // ---------------------------------------------------------------------------
  // Keyword planner
  // ---------------------------------------------------------------------------

  /** What the planner decides a query is about. */
  datatype Intent = Delivery | Channel | CityRegion | Demographics | Engagement | PredictiveModel | Summary

  /** The keyword rule of intent `i` fires on query `q`: the lower-cased query
      contains one of the rule's words. `Summary` has no rule: it is the
      default. */
  predicate Fires(i: Intent, q: string) {
    var l := Lower(q);
    match i
    case Delivery => Contains(l, "delivery")
    case Channel => Contains(l, "channel")
    case CityRegion => Contains(l, "city") || Contains(l, "region")
    case Demographics => Contains(l, "gender") || Contains(l, "demograph")
    case Engagement => Contains(l, "visit") || Contains(l, "engage")
    case PredictiveModel => Contains(l, "model") || Contains(l, "predict") || Contains(l, "driver")
    case Summary => false
  }

  /** The precedence of an intent's rule: lower is tried first. */
  function Priority(i: Intent): nat {
    match i
    case Delivery => 0
    case Channel => 1
    case CityRegion => 2
    case Demographics => 3
    case Engagement => 4
    case PredictiveModel => 5
    case Summary => 6
  }

  /** The rules, in the order they are tried. */
  const Precedence: seq<Intent> := [Delivery, Channel, CityRegion, Demographics, Engagement, PredictiveModel]

  predicate InPrecedenceOrder(rules: seq<Intent>) {
    Summary !in rules && forall a, b :: 0 <= a < b < |rules| ==> Priority(rules[a]) < Priority(rules[b])
  }

  /** The first rule of `rules` that fires, or `Summary` when none does. */
  function FirstMatch(rules: seq<Intent>, q: string): (i: Intent)
    requires InPrecedenceOrder(rules)
    ensures i == Summary || (i in rules && Fires(i, q))
    ensures forall j :: j in rules && Priority(j) < Priority(i) ==> !Fires(j, q)
  {
    if rules == [] then Summary
    else if Fires(rules[0], q) then
      assert forall j :: j in rules ==> j == rules[0] || Priority(rules[0]) < Priority(j);
      rules[0]
    else
      var i := FirstMatch(rules[1..], q);
      assert forall j :: j in rules ==> j == rules[0] || j in rules[1..];
      i
  }

  /** The intent of a query: the first rule in precedence order that fires,
      `Summary` when none fires. */
  function Classify(q: string): (i: Intent)
    ensures i != Summary ==> Fires(i, q)
    ensures forall j :: Priority(j) < Priority(i) ==> !Fires(j, q)
  {
    assert forall j :: j != Summary ==> j in Precedence;
    FirstMatch(Precedence, q)
  }

  /** The two properties of `Classify` determine the intent: first match wins. */
  lemma ClassifyUnique(q: string, i: Intent)
    requires i != Summary ==> Fires(i, q)
    requires forall j :: Priority(j) < Priority(i) ==> !Fires(j, q)
    ensures i == Classify(q)
  {
    var c := Classify(q);
    if Priority(i) < Priority(c) {
      assert !Fires(i, q);
    } else if Priority(c) < Priority(i) {
      assert !Fires(c, q);
    }
  }

  /** The planner's if/elif chain: each rule decides the intent exactly when
      it fires and no earlier rule does; the default applies exactly when no
      rule fires (`Fires` holds each rule's keywords). */
  lemma ClassificationRules(q: string)
    ensures Classify(q) == Delivery <==> Fires(Delivery, q)
    ensures Classify(q) == Channel <==> !Fires(Delivery, q) && Fires(Channel, q)
    ensures Classify(q) == CityRegion
      <==> !Fires(Delivery, q) && !Fires(Channel, q) && Fires(CityRegion, q)
    ensures Classify(q) == Demographics
      <==> !Fires(Delivery, q) && !Fires(Channel, q) && !Fires(CityRegion, q) && Fires(Demographics, q)
    ensures Classify(q) == Engagement
      <==> !Fires(Delivery, q) && !Fires(Channel, q) && !Fires(CityRegion, q) && !Fires(Demographics, q)
           && Fires(Engagement, q)
    ensures Classify(q) == PredictiveModel
      <==> !Fires(Delivery, q) && !Fires(Channel, q) && !Fires(CityRegion, q) && !Fires(Demographics, q)
           && !Fires(Engagement, q) && Fires(PredictiveModel, q)
    ensures Classify(q) == Summary
      <==> !Fires(Delivery, q) && !Fires(Channel, q) && !Fires(CityRegion, q) && !Fires(Demographics, q)
           && !Fires(Engagement, q) && !Fires(PredictiveModel, q)
  {
    var c := Classify(q);
    forall i | i != Summary && Fires(i, q) && (forall j :: Priority(j) < Priority(i) ==> !Fires(j, q))
      ensures c == i
    {
      ClassifyUnique(q, i);
    }
    if forall j :: !Fires(j, q) {
      ClassifyUnique(q, Summary);
    }
  }

  /** The tool the planner calls for each intent. */
  function ToolFor(i: Intent): Tool {
    match i
    case Delivery => AnalyzeDeliveryImpact
    case Channel => AnalyzeChannelPerformance
    case CityRegion => AnalyzeCityPerformance
    case Demographics => AnalyzeDemographics
    case Engagement => AnalyzeEngagement
    case PredictiveModel => TrainPredictiveModel
    case Summary => GetDataSummary
  }

  /** Distinct intents call distinct analysis tools, all registered, and
      none of them is the knowledge-base lookup. */
  lemma ToolForOneToOne(i: Intent, j: Intent)
    ensures ToolFor(i) == ToolFor(j) ==> i == j
    ensures ToolFor(i) != GetBusinessContext && ToolFor(i) in Registry
  {
  }

  /** The plan label the planner reports; demographics, engagement and the
      default keep the initial label. */
  function PlanLabel(i: Intent): string {
    match i
    case Delivery => "investigate delivery times"
    case Channel => "check acquisition channels"
    case CityRegion => "check city breaks"
    case PredictiveModel => "train ML model"
    case Demographics | Engagement | Summary => "check context"
  }

  // ---------------------------------------------------------------------------
  // Response template
  // ---------------------------------------------------------------------------

  const Banner: string := "\n--- AGENT RESPONSE (MOCK MODE) ---\nBased on the Mock Logic: The user asked about '"
  const Middle: string := "'.\n\nAnalysis Result:\n"
  const Footer: string :=
    "\n\nRecommendation:\n(Simulated) Please investigate the highlighted metrics above, "
    + "specifically targeting high-churn segments.\n----------------------\n"

  /** The planner's answer: the template with the plan label and the tool's
      result filled in. */
  function Respond(plan: string, result: string): string {
    Banner + plan + Middle + result + Footer
  }

  /** Reads the analysis result back out of a planner answer for a known plan
      label; `None` when the text does not have the template's shape. */
  function AnalysisResult(response: string, plan: string): (r: Option<string>)
    ensures r.Some? ==> Respond(plan, r.value) == response
  {
    var head := Banner + plan + Middle;
    if |head| + |Footer| <= |response| && response[..|head|] == head
       && response[|response| - |Footer|..] == Footer
    then
      var result := response[|head|..|response| - |Footer|];
      Recompose(response, head, Footer);
      Some(result)
    else None
  }

  /** The template loses nothing: the tool result can be read back out of
      the answer. */
  lemma AnalysisResultOfRespond(plan: string, result: string)
    ensures AnalysisResult(Respond(plan, result), plan) == Some(result)
  {
    var head := Banner + plan + Middle;
    var response := Respond(plan, result);
    assert response == head + result + Footer;
    assert response[..|head|] == head;
    assert response[|response| - |Footer|..] == Footer;
    assert response[|head|..|response| - |Footer|] == result;
  }

  /** What the planner answers for `query`, given what each tool returns. */
  function MockAnswer(query: string, outputs: Tool -> string): string {
    var i := Classify(query);
    Respond(PlanLabel(i), outputs(ToolFor(i)))
  }

  /** A question about delivery and churn is answered with the delivery
      analysis under the plan "investigate delivery times". */
  lemma DeliveryQueryPlan(outputs: Tool -> string)
    ensures MockAnswer(KnowledgeBase.DeliveryQuestion, outputs)
      == Respond("investigate delivery times", outputs(AnalyzeDeliveryImpact))
  {
    KnowledgeBase.DeliveryQuestionHas();
    ClassificationRules(KnowledgeBase.DeliveryQuestion);
  }

  /** When both the delivery and the channel rule fire, delivery wins. */
  lemma DeliveryOutranksChannel()
    ensures Classify("Does " + "delivery" + " affect our channel performance?") == Delivery
  {
    var q := "Does " + "delivery" + " affect our channel performance?";
    OccursBetween("Does ", "delivery", " affect our channel performance?");
    ContainsLower(q, "delivery", 5);
    ClassificationRules(q);
  }

  /** A greeting fires no rule: the data summary under "check context". */
  lemma GreetingFallsBackToSummary(outputs: Tool -> string)
    ensures MockAnswer("Hi", outputs) == Respond("check context", outputs(GetDataSummary))
  {
    ClassificationRules("Hi");
  }

  // ---------------------------------------------------------------------------
  // Mode selection and routing
  // ---------------------------------------------------------------------------

  /** What happens when the executor is built: it is built, or the import of
      the agent library fails, or some other construction step raises. */
  datatype BuildOutcome = Built | ImportFailed | OtherFailed

  /** What one call of the executor yields: its `output` entry, or a failure
      (any exception, including a response without an `output` entry). */
  datatype InvokeOutcome = Success(output: string) | Failure

  /** The LLM tool-calling executor, by what it is built from. */
  datatype Executor = AgentExecutor(tools: seq<Tool>, instruction: string)

  /** A key that is present, non-empty and not the placeholder text. */
  predicate UsableKey(apiKey: Option<string>) {
    apiKey.Some? && apiKey.value != "" && !StartsWith(apiKey.value, "paste_your")
  }

  /** Every key that starts with the placeholder text is unusable, whatever
      follows it. */
  lemma PlaceholderKeyUnusable(suffix: string)
    ensures !UsableKey(Some("paste_your" + suffix))
  {
    StartsWithConcat("paste_your", suffix);
  }

  /** The keyword router of the mock planner: lower-cases the query, tries
      the rules in precedence order, calls the tool of the first rule that
      fires (the data summary when none fires) and sets the plan label,
      which starts as "check context". */
  method Route(query: string, outputs: Tool -> string) returns (plan: string, result: string, tool: Tool)
    ensures tool == ToolFor(Classify(query))
    ensures plan == PlanLabel(Classify(query))
    ensures result == outputs(tool)
  {
    var q := Lower(query);
    result := "";
    plan := "check context";
    if Contains(q, "delivery") {
      tool := AnalyzeDeliveryImpact;
      result := outputs(tool);
      plan := "investigate delivery times";
      ClassifyUnique(query, Delivery);
    } else if Contains(q, "channel") {
      tool := AnalyzeChannelPerformance;
      result := outputs(tool);
      plan := "check acquisition channels";
      ClassifyUnique(query, Channel);
    } else if Contains(q, "city") || Contains(q, "region") {
      tool := AnalyzeCityPerformance;
      result := outputs(tool);
      plan := "check city breaks";
      ClassifyUnique(query, CityRegion);
    } else if Contains(q, "gender") || Contains(q, "demograph") {
      tool := AnalyzeDemographics;
      result := outputs(tool);
      ClassifyUnique(query, Demographics);
    } else if Contains(q, "visit") || Contains(q, "engage") {
      tool := AnalyzeEngagement;
      result := outputs(tool);
      ClassifyUnique(query, Engagement);
    } else if Contains(q, "model") || Contains(q, "predict") || Contains(q, "driver") {
      tool := TrainPredictiveModel;
      result := outputs(tool);
      plan := "train ML model";
      ClassifyUnique(query, PredictiveModel);
    } else {
      tool := GetDataSummary;
      result := outputs(tool);
      ClassifyUnique(query, Summary);
    }
  }

  class ShopEaseAnalyst {
    /** The knowledge base the context tool reads. */
    const kb: KnowledgeBase.BusinessKnowledgeBase
    var tools: seq<Tool>
    var useMock: bool
    var agentExecutor: Option<Executor>
    /** Whether building the executor was attempted at all. */
    ghost var buildAttempted: bool

    ghost predicate Valid()
      reads this, kb
    {
      && kb.Valid()
      && tools == Registry
      && (useMock <==> agentExecutor.None?)
      && (agentExecutor.Some? ==> agentExecutor.value == AgentExecutor(Registry, SystemInstruction))
    }

    /** Mode selection: the planner is used when the key is missing, empty or
        the placeholder (and then no executor is built), or when building the
        executor raises; otherwise the executor is built over all tools. */
    constructor (kb: KnowledgeBase.BusinessKnowledgeBase, apiKey: Option<string>, build: BuildOutcome)
      requires kb.Valid()
      ensures Valid() && this.kb == kb
      ensures buildAttempted <==> UsableKey(apiKey)
      ensures useMock <==> !UsableKey(apiKey) || build != Built
      ensures agentExecutor == if useMock then None else Some(AgentExecutor(Registry, SystemInstruction))
    {
      this.kb := kb;
      tools := Registry;
      useMock := false;
      agentExecutor := None;
      buildAttempted := false;
      if apiKey.None? || apiKey.value == "" || StartsWith(apiKey.value, "paste_your") {
        useMock := true;
      } else {
        buildAttempted := true;
        match build
        case Built =>
          agentExecutor := Some(AgentExecutor(tools, SystemInstruction));
        case ImportFailed =>
          useMock := true;
        case OtherFailed =>
          useMock := true;
      }
    }

    /** `process_query`: the planner in mock mode; in LLM mode the executor's
        output, unchanged, or the planner's answer when the call fails. It
        changes nothing, so the mode stays as it was. */
    method ProcessQuery(query: string, outputs: Tool -> string, llmOutcome: InvokeOutcome)
      returns (answer: string)
      requires Valid()
      ensures answer == if !useMock && llmOutcome.Success? then llmOutcome.output
                        else MockAnswer(query, outputs)
    {
      var context: string, invoked: seq<Tool>;
      if useMock {
        answer, context, invoked := MockProcessQuery(query, outputs);
      } else {
        match llmOutcome
        case Success(output) =>
          answer := output;
        case Failure =>
          answer, context, invoked := MockProcessQuery(query, outputs);
      }
    }

    /** `_mock_process_query`: looks the query up in the knowledge base, then
        lets the keyword router call one analysis tool, and fills the template
        with the plan label and the tool's result. `context` is what the
        lookup retrieved; it is not part of the answer. `invoked` lists the
        tools called, in order. */
    method MockProcessQuery(query: string, outputs: Tool -> string)
      returns (response: string, context: string, invoked: seq<Tool>)
      requires Valid()
      ensures context == KnowledgeBase.Retrieve(query)
      ensures invoked == [GetBusinessContext, ToolFor(Classify(query))]
      ensures response == MockAnswer(query, outputs)
    {
      context := kb.RetrieveContext(query);
      invoked := [GetBusinessContext];
      var plan, result, tool := Route(query, outputs);
      invoked := invoked + [tool];
      response := Banner + plan + Middle + result + Footer;
    }
  }
}
