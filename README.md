# ShopEase analyst agent: knowledge base and planner

This project models the decision logic of the ShopEase analyst agent in Dafny. It covers two parts.

**The business knowledge base** (`BusinessKnowledgeBase`).
- It holds four fixed documents: background, problem, hypotheses and constraints.
- It answers a query by lower-casing it and applying three keyword rules.
- The documents whose rules fire are returned in a fixed order: problem, hypotheses, constraints.
- When no rule fires, the background document is returned alone.
- The result is joined with newlines.

**The analyst** (`ShopEaseAnalyst`).
- It picks its mode once, when it is built. It uses the LLM tool-calling executor when the API key is usable and the executor builds. Otherwise it uses a keyword planner (mock mode).
- `process_query` returns the executor's output. In mock mode, or when the executor call fails, it returns the planner's answer.
- The planner consults the knowledge base first. It then classifies the lower-cased query with a first-match-wins chain of substring tests and calls exactly one analysis tool. Finally it fills a fixed response template with a plan label and the tool's result.

Files:
- `text.dfy` (module `Text`): the string operations the source relies on.
  - ASCII lower-casing and substring search (`w in s`).
  - `startswith`, `join`, and `split` as the inverse of `join`.
- `knowledge_base.dfy` (module `KnowledgeBase`): the document table and the retrieval specification.
  - `RelevantKeys` says which documents a query selects. `Retrieve` gives the joined context.
  - The class `BusinessKnowledgeBase` holds the `documents` field. Its method `RetrieveContext` appends step by step as the source does and is proved equal to `Retrieve`.
- `analyst.dfy` (module `Analyst`): the planner specification.
  - `Classify` picks the first firing rule, `ToolFor` and `PlanLabel` give the tool and the label, and `Respond` fills the template.
  - The keyword router `Route` is an if/elif chain proved equal to `Classify`.
  - The class `ShopEaseAnalyst` has the mode-selecting constructor and the methods `ProcessQuery` and `MockProcessQuery`.

The outside world comes in as parameters:
- What each analysis tool returns is the function `outputs: Tool -> string`.
- The API key is an `Option<string>`.
- Building the executor is a `BuildOutcome`: built, import failed, or another exception.
- One executor call is an `InvokeOutcome`: `Success(output)` or `Failure`.

Retrieval is deterministic and leaves the document table unchanged. `RetrieveContext` has no `modifies` clause, and its result is a function of the query alone. Likewise `ProcessQuery` modifies nothing, so it cannot change the mode.

The retrieved context never reaches the planner's answer. `MockProcessQuery` returns the context it looked up, proved equal to `Retrieve(query)`. Its answer is proved equal to `MockAnswer`, a function of the query and the tool outputs only.

## Model

| member | source | states |
|---|---|---|
| Text.Lower | ShopEase_Agent/src/rag.py:21 | Lower-casing keeps the length and maps each character on its own: upper-case ASCII letters to lower case, everything else unchanged |
| Text.LowerIdempotent | ShopEase_Agent/src/rag.py:21 | Lower-casing twice equals lower-casing once, and no upper-case letter is left |
| Text.ContainsIffOccurs | ShopEase_Agent/src/rag.py:25-30 | The substring test `w in s` holds exactly when `w` occurs in `s` at some index |
| Text.ContainsLower | ShopEase_Agent/src/agent.py:99-104 | A lower-case keyword found verbatim in the query is still found in the lower-cased query |
| Text.NotContainsAcross | ShopEase_Agent/src/rag.py:29-30 | A word without the character `c` occurs in `a + [c] + b` only if it occurs in `a` or in `b` |
| Text.SplitJoin | ShopEase_Agent/src/rag.py:36 | Splitting a newline-joined list of newline-free texts on the newline gives the list back, element for element |
| Text.JoinSplit | ShopEase_Agent/src/rag.py:36 | Joining the pieces of a split with the separator gives the original string back |
| KnowledgeBase.NoNewlineInDocuments | ShopEase_Agent/src/rag.py:10-15 | The table has all four documents, and none holds a newline |
| KnowledgeBase.Matching | ShopEase_Agent/src/rag.py:25-30 | The documents kept are exactly those whose rule fires, and they stay in rule order |
| KnowledgeBase.RelevantKeys | ShopEase_Agent/src/rag.py:21-34 | At least one document is selected, in the order problem, hypotheses, constraints, each at most once. A rule's document is selected iff its rule fires. Background is selected iff no rule fires |
| KnowledgeBase.RelevantKeysUnique | ShopEase_Agent/src/rag.py:25-34 | Inclusion, order and the fallback determine the selection completely |
| KnowledgeBase.RetrievalRules | ShopEase_Agent/src/rag.py:25-34 | Problem iff the lower-cased query contains "churn" or "problem". Hypotheses iff it contains "delivery", "discount" or "suspect". Constraints iff it contains "budget" or "cost". When background is selected it is the only document |
| KnowledgeBase.RelevantKeysByPicks | ShopEase_Agent/src/rag.py:25-34 | The selection is the three conditional appends in rule order, followed by the fallback when the list is still empty |
| KnowledgeBase.Retrieve | ShopEase_Agent/src/rag.py:17-36 | The context is never empty. Splitting it on newlines gives exactly the selected documents' texts, in order |
| KnowledgeBase.RetrieveIgnoresCase | ShopEase_Agent/src/rag.py:21 | A query and its lower-cased form select the same documents and retrieve the same context |
| KnowledgeBase.DeliveryQueryContext | ShopEase_Agent/src/rag.py:25-36 | The demonstration question "Does delivery time affect churn?" selects exactly [problem, hypotheses] and retrieves the problem text, a newline, then the hypotheses text |
| KnowledgeBase.ProblemAndHypothesesContext | ShopEase_Agent/src/rag.py:25-36 | Any query that fires the problem and hypotheses rules but not the constraints rule retrieves exactly the problem text, a newline, then the hypotheses text |
| KnowledgeBase.GreetingRetrievesBackground | ShopEase_Agent/src/rag.py:33-34 | A query that fires no rule ("Hi") retrieves the background document alone |
| KnowledgeBase.BusinessKnowledgeBase.constructor | ShopEase_Agent/src/rag.py:9-15 | The knowledge base starts with the fixed four-document table |
| KnowledgeBase.BusinessKnowledgeBase.RetrieveContext | ShopEase_Agent/src/rag.py:17-36 | The context built by the appends and the join equals `Retrieve(query)` |
| Analyst.FirstMatch | ShopEase_Agent/src/agent.py:104-128 | The result is a rule that fires, or the default. No rule tried before it fires |
| Analyst.Classify | ShopEase_Agent/src/agent.py:104-128 | The chosen intent's rule fires (unless it is the default), and no rule of higher precedence fires |
| Analyst.ClassifyUnique | ShopEase_Agent/src/agent.py:104-128 | Any intent with those two properties is the classified one: first match wins |
| Analyst.ClassificationRules | ShopEase_Agent/src/agent.py:104-128 | Each branch is taken iff its keywords occur and no earlier branch's keywords do. The order is delivery; channel; city/region; gender/demograph; visit/engage; model/predict/driver. The summary is used iff no rule fires |
| Analyst.ToolForOneToOne | ShopEase_Agent/src/agent.py:104-128 | Different branches call different registered analysis tools, never the knowledge-base tool |
| Analyst.AnalysisResult | ShopEase_Agent/src/agent.py:130-141 | A result read back from an answer refills the template to exactly that answer |
| Analyst.AnalysisResultOfRespond | ShopEase_Agent/src/agent.py:130-141 | The template loses nothing: the tool result can be read back out of the answer |
| Analyst.DeliveryQueryPlan | ShopEase_Agent/src/agent.py:104-107 | The demonstration question "Does delivery time affect churn?" is answered with the delivery analysis under "investigate delivery times" |
| Analyst.DeliveryOutranksChannel | ShopEase_Agent/src/agent.py:104-111 | A query that mentions both delivery and channel is routed to delivery |
| Analyst.GreetingFallsBackToSummary | ShopEase_Agent/src/agent.py:126-128 | A query that fires no rule gets the data summary under the default label "check context" |
| Analyst.PlaceholderKeyUnusable | ShopEase_Agent/src/agent.py:44 | No key that starts with "paste_your" is usable |
| Analyst.Route | ShopEase_Agent/src/agent.py:99-128 | The router calls `ToolFor(Classify(query))` and returns its output. The label is `PlanLabel(Classify(query))`, so only delivery, channel, city/region and model change "check context" |
| Analyst.ShopEaseAnalyst.constructor | ShopEase_Agent/src/agent.py:27-73 | Registers the eight tools. Mock mode iff the key is missing, empty or the placeholder, or building the executor raises. Building is attempted iff the key is usable. An executor exists iff not in mock mode |
| Analyst.ShopEaseAnalyst.ProcessQuery | ShopEase_Agent/src/agent.py:75-89 | In LLM mode a successful call returns the executor's output unchanged. In mock mode, or when the call fails, it returns the planner's answer |
| Analyst.ShopEaseAnalyst.MockProcessQuery | ShopEase_Agent/src/agent.py:91-141 | Looks the raw query up in the knowledge base, and the context it returns is `Retrieve(query)`. Then it calls exactly one analysis tool. The answer is the template with the plan label and that tool's result, so it does not depend on the context |

## Left out

- The analysis tools (`tools.py`) are not part of this model. They cover CSV loading with pandas, floating-point statistics, plotting and model training. Each tool's result is an opaque string given by the `outputs` parameter.
- The LangChain and OpenAI machinery is left out: the chat model, the prompt template, agent creation and the `@tool` wrappers. Building the executor is the `BuildOutcome` parameter and one executor call is the `InvokeOutcome` parameter. The executor is recorded only by its tool list and system instruction.
- A response without an `output` entry makes the source raise `KeyError`, which it catches. The model folds this into `Failure`.
- `load_dotenv` and `os.getenv` are left out; the API key is a parameter. All `print` logging is left out, including the logged `context[:50]` preview.
- The module-level knowledge-base instance and the `get_business_context` wrapper are not modelled. The analyst instead receives the knowledge base it consults as a constructor argument.
- Lower-casing covers ASCII letters only. Python's Unicode case mapping is not modelled.
- Exceptions raised by an analysis tool inside the planner are not modelled: tools are total functions. The model therefore does not claim that the planner never fails.
- The planner's if/elif chain is its own method, `Route`, separate from `MockProcessQuery`. Its locals `plan`, `result` and the chosen tool are returned to the caller rather than kept as locals of one method.
