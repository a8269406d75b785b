/** The business knowledge base: four fixed documents and a keyword rule per
    document that decides whether a query retrieves it. */
module KnowledgeBase {
  import opened Text

  datatype DocKey = Background | Problem | Hypotheses | Constraints

  // Each text is written as two halves of short pieces so that the verifier
  // can see, half by half, that no text holds a newline.
  const BackgroundHead: string :=
    "ShopEase is a mid-size " + "E-commerce Platform " + "in India operating " + "D2C + Marketplace "
  const BackgroundTail: string :=
    "models. Categories: " + "Electronics, Fashion, " + "Home & Kitchen, Beauty."
  const BackgroundText: string := BackgroundHead + BackgroundTail

  const ProblemHead: string :=
    "Leadership is concerned about " + "increasing customer churn and "
  const ProblemTail: string :=
    "declining repeat purchase " + "rates, particularly from paid " + "channels."
  const ProblemText: string := ProblemHead + ProblemTail

  const HypothesesHead: string :=
    "Leadership suspects poor " + "delivery experience, " + "discount dependency, and low "
  const HypothesesTail: string :=
    "post-purchase engagement are " + "contributing factors."
  const HypothesesText: string := HypothesesHead + HypothesesTail

  const ConstraintsHead: string :=
    "Marketing budget is capped. " + "Heavy discounting is " + "discouraged. Focus on "
  const ConstraintsTail: string :=
    "operational or engagement " + "improvements."
  const ConstraintsText: string := ConstraintsHead + ConstraintsTail

  /** The document table the knowledge base is built with. */
  function DocumentTable(): map<DocKey, string> {
    map[Background := BackgroundText, Problem := ProblemText,
        Hypotheses := HypothesesText, Constraints := ConstraintsText]
  }

  /** The place of a document in the retrieved context. */
  function Rank(k: DocKey): nat {
    match k
    case Problem => 0
    case Hypotheses => 1
    case Constraints => 2
    case Background => 3
  }

  /** The keyword rule of document `k` fires on query `q`: the lower-cased
      query contains one of the rule's words. The background document has no
      rule: it is only ever the fallback. */
  predicate Selects(k: DocKey, q: string) {
    var l := Lower(q);
    match k
    case Background => false
    case Problem => Contains(l, "churn") || Contains(l, "problem")
    case Hypotheses => Contains(l, "delivery") || Contains(l, "discount") || Contains(l, "suspect")
    case Constraints => Contains(l, "budget") || Contains(l, "cost")
  }

  predicate RankOrdered(ks: seq<DocKey>) {
    forall i, j :: 0 <= i < j < |ks| ==> Rank(ks[i]) < Rank(ks[j])
  }

  /** The rules in the order they are tried. */
  const RuleOrder: seq<DocKey> := [Problem, Hypotheses, Constraints]

  /** The documents of `rules` whose rule fires, kept in rule order. */
  function Matching(rules: seq<DocKey>, q: string): (ks: seq<DocKey>)
    requires RankOrdered(rules)
    ensures forall k :: k in ks <==> k in rules && Selects(k, q)
    ensures RankOrdered(ks)
  {
    if rules == [] then []
    else
      var rest := Matching(rules[1..], q);
      assert forall k :: k in rest ==> k in rules[1..] && Rank(rules[0]) < Rank(k);
      if Selects(rules[0], q) then [rules[0]] + rest else rest
  }

  /** The keys of the documents a query retrieves: the documents whose rules
      fire, in rule order, or the background document alone when none fires. */
  function RelevantKeys(q: string): (ks: seq<DocKey>)
    ensures |ks| >= 1
    ensures RankOrdered(ks)
    ensures forall k :: k != Background ==> (k in ks <==> Selects(k, q))
    ensures Background in ks <==> forall k :: !Selects(k, q)
  {
    var m := Matching(RuleOrder, q);
    if m == [] then
      assert forall k :: !Selects(k, q) by {
        forall k ensures !Selects(k, q) {
          if k != Background { assert k in RuleOrder; }
        }
      }
      [Background]
    else
      assert Background !in m;
      assert m[0] in m && Selects(m[0], q);
      m
  }

  /** The retrieved keys are the only sequence with the properties that
      `RelevantKeys` promises: inclusion, order and fallback determine it. */
  lemma RelevantKeysUnique(q: string, ks: seq<DocKey>)
    requires RankOrdered(ks)
    requires forall k :: k != Background ==> (k in ks <==> Selects(k, q))
    requires Background in ks <==> forall k :: !Selects(k, q)
    ensures ks == RelevantKeys(q)
  {
    RankOrderedSameMembers(ks, RelevantKeys(q));
  }

  lemma {:induction false} RankOrderedSameMembers(a: seq<DocKey>, b: seq<DocKey>)
    requires RankOrdered(a) && RankOrdered(b)
    requires forall k :: k in a <==> k in b
    ensures a == b
  {
    if a != [] || b != [] {
      var k0 := (a + b)[0];
      assert k0 in a && k0 in b;
      RankOrderedHead(a, b[0]);
      RankOrderedHead(b, a[0]);
      RankOrderedTail(a);
      RankOrderedTail(b);
      RankOrderedSameMembers(a[1..], b[1..]);
      assert a == [a[0]] + a[1..];
      assert b == [b[0]] + b[1..];
    }
  }

  lemma RankOrderedHead(a: seq<DocKey>, k: DocKey)
    requires RankOrdered(a) && k in a
    ensures Rank(a[0]) <= Rank(k)
  {
  }

  lemma RankOrderedTail(a: seq<DocKey>)
    requires RankOrdered(a) && a != []
    ensures RankOrdered(a[1..])
    ensures forall k :: k in a[1..] <==> k in a && k != a[0]
  {
  }

  /** The three keyword rules and the fallback, written out word by word. */
  lemma RetrievalRules(q: string)
    ensures Problem in RelevantKeys(q)
      <==> Contains(Lower(q), "churn") || Contains(Lower(q), "problem")
    ensures Hypotheses in RelevantKeys(q)
      <==> Contains(Lower(q), "delivery") || Contains(Lower(q), "discount") || Contains(Lower(q), "suspect")
    ensures Constraints in RelevantKeys(q)
      <==> Contains(Lower(q), "budget") || Contains(Lower(q), "cost")
    ensures Background in RelevantKeys(q) <==> RelevantKeys(q) == [Background]
  {
    var ks := RelevantKeys(q);
  }

  /** The document texts of `ks`, in order. */
  function Texts(docs: map<DocKey, string>, ks: seq<DocKey>): (ts: seq<string>)
    requires forall k :: k in ks ==> k in docs
    ensures |ts| == |ks|
    ensures forall i :: 0 <= i < |ks| ==> ts[i] == docs[ks[i]]
  {
    if ks == [] then [] else [docs[ks[0]]] + Texts(docs, ks[1..])
  }

  lemma TextsAppend(docs: map<DocKey, string>, ks: seq<DocKey>, k: DocKey)
    requires forall k' :: k' in ks ==> k' in docs
    requires k in docs
    ensures Texts(docs, ks + [k]) == Texts(docs, ks) + [docs[k]]
  {
  }

  /** The document `k` contributes to a query's context: itself when its
      rule fires, nothing otherwise. */
  function Picked(k: DocKey, q: string): seq<DocKey> {
    if Selects(k, q) then [k] else []
  }

  lemma MatchingInRuleOrder(q: string)
    ensures Matching(RuleOrder, q) == Picked(Problem, q) + Picked(Hypotheses, q) + Picked(Constraints, q)
  {
    var tail := [Hypotheses, Constraints];
    var last := [Constraints];
    assert RankOrdered(RuleOrder);
    assert RankOrdered(tail);
    assert RankOrdered(last);
    MatchingCons(RuleOrder, q);
    assert RuleOrder[1..] == tail;
    MatchingCons(tail, q);
    assert tail[1..] == last;
    MatchingCons(last, q);
    assert last[1..] == [];
    var p, h, c := Picked(Problem, q), Picked(Hypotheses, q), Picked(Constraints, q);
    assert Matching(last, q) == c;
    assert Matching(tail, q) == h + c;
    ConcatAssociative(p, h, c);
  }

  /** Associativity of `+`, stated apart: inside `MatchingInRuleOrder` the
      three parts are large terms and the verifier does not find it there. */
  lemma ConcatAssociative(p: seq<DocKey>, h: seq<DocKey>, c: seq<DocKey>)
    ensures p + (h + c) == p + h + c
  {
  }

  lemma MatchingCons(rules: seq<DocKey>, q: string)
    requires rules != [] && RankOrdered(rules)
    ensures Matching(rules, q) == Picked(rules[0], q) + Matching(rules[1..], q)
  {
  }

  /** The retrieved keys, built the way `retrieve_context` builds them:
      each rule's document appended in turn, then the fallback. */
  lemma RelevantKeysByPicks(q: string, p: seq<DocKey>, ph: seq<DocKey>, keys: seq<DocKey>)
    requires p == Picked(Problem, q)
    requires ph == p + Picked(Hypotheses, q)
    requires var phc := ph + Picked(Constraints, q);
      keys == if phc == [] then [Background] else phc
    ensures keys == RelevantKeys(q)
  {
    MatchingInRuleOrder(q);
  }

  /** The context a query retrieves from the fixed table: the selected
      documents joined by newlines. It is never empty, and since no document
      holds a newline, splitting it on newlines gives back exactly the
      selected documents, in order and each once. */
  function Retrieve(q: string): (context: string)
    ensures |context| > 0
    ensures Split(context, '\n') == Texts(DocumentTable(), RelevantKeys(q))
  {
    var ts := Texts(DocumentTable(), RelevantKeys(q));
    NoNewlineInDocuments();
    SplitJoin(ts, '\n');
    JoinNonEmpty(ts, "\n");
    Join(ts, "\n")
  }

  lemma NoNewlineInDocuments()
    ensures forall k :: k in DocumentTable() && '\n' !in DocumentTable()[k]
  {
    NoNewlineInBackgroundHead();
    NoNewlineInBackgroundTail();
    NoNewlineInProblemHead();
    NoNewlineInProblemTail();
    NoNewlineInHypothesesHead();
    NoNewlineInHypothesesTail();
    NoNewlineInConstraintsHead();
    NoNewlineInConstraintsTail();
    forall k ensures k in DocumentTable() && '\n' !in DocumentTable()[k] {
      match k
      case Background =>
      case Problem =>
      case Hypotheses =>
      case Constraints =>
    }
  }

  lemma NoNewlineInBackgroundHead() ensures '\n' !in BackgroundHead {}
  lemma NoNewlineInBackgroundTail() ensures '\n' !in BackgroundTail {}
  lemma NoNewlineInProblemHead() ensures '\n' !in ProblemHead {}
  lemma NoNewlineInProblemTail() ensures '\n' !in ProblemTail {}
  lemma NoNewlineInHypothesesHead() ensures '\n' !in HypothesesHead {}
  lemma NoNewlineInHypothesesTail() ensures '\n' !in HypothesesTail {}
  lemma NoNewlineInConstraintsHead() ensures '\n' !in ConstraintsHead {}
  lemma NoNewlineInConstraintsTail() ensures '\n' !in ConstraintsTail {}

  lemma {:induction false} JoinNonEmpty(ts: seq<string>, sep: string)
    requires |ts| >= 1 && |ts[0]| > 0
    ensures |Join(ts, sep)| > 0
  {
  }

  /** Retrieval ignores letter case: a query and its lower-cased form
      retrieve the same context. */
  lemma RetrieveIgnoresCase(q: string)
    ensures RelevantKeys(Lower(q)) == RelevantKeys(q)
    ensures Retrieve(Lower(q)) == Retrieve(q)
  {
    LowerIdempotent(q);
    assert forall k :: Selects(k, Lower(q)) <==> Selects(k, q);
    RelevantKeysUnique(Lower(q), RelevantKeys(q));
  }

  /** The question the agent's demonstration run asks. */
  const DeliveryQuestion: string := "Does" + " " + "delivery" + " " + "time" + " " + "affect" + " " + "churn?"

  /** The demonstration question, lower-cased, holds "delivery" and "churn". */
  lemma DeliveryQuestionHas()
    ensures Contains(Lower(DeliveryQuestion), "delivery")
    ensures Contains(Lower(DeliveryQuestion), "churn")
  {
    var q := DeliveryQuestion;
    OccursBetween("Does" + " ", "delivery", " " + "time" + " " + "affect" + " " + "churn?");
    ContainsLower(q, "delivery", 5);
    OccursBetween("Does" + " " + "delivery" + " " + "time" + " " + "affect" + " ", "churn", "?");
    ContainsLower(q, "churn", 26);
  }

  /** Five space-separated words, lower-cased, do not hold a word `w` without
      a space when the letter `w[k1]` is in neither case in the first three
      words and the letter `w[k2]` in neither case in the last two. */
  lemma FiveWordsLack(a: string, b: string, c: string, d: string, e: string, w: string, k1: nat, k2: nat)
    requires ' ' !in w && k1 < |w| && k2 < |w| && 'a' <= w[k1] <= 'z' && 'a' <= w[k2] <= 'z'
    requires var u1 := (w[k1] as int - 32) as char;
      w[k1] !in a && u1 !in a && w[k1] !in b && u1 !in b && w[k1] !in c && u1 !in c
    requires var u2 := (w[k2] as int - 32) as char;
      w[k2] !in d && u2 !in d && w[k2] !in e && u2 !in e
    ensures !Contains(Lower(a + " " + b + " " + c + " " + d + " " + e), w)
  {
    CharAbsentLower(a, w, k1);
    CharAbsentLower(b, w, k1);
    CharAbsentLower(c, w, k1);
    CharAbsentLower(d, w, k2);
    CharAbsentLower(e, w, k2);
    LowerNotContainsAcross(a, ' ', b, w);
    LowerNotContainsAcross(a + " " + b, ' ', c, w);
    LowerNotContainsAcross(a + " " + b + " " + c, ' ', d, w);
    LowerNotContainsAcross(a + " " + b + " " + c + " " + d, ' ', e, w);
  }

  /** The demonstration question, lower-cased, holds no "budget": no word
      of it has a 'b'. */
  lemma DeliveryQuestionLacksBudget()
    ensures !Contains(Lower(DeliveryQuestion), "budget")
  {
    FiveWordsLack("Does", "delivery", "time", "affect", "churn?", "budget", 0, 0);
  }

  /** The demonstration question, lower-cased, holds no "cost": the first
      three words have no 'c' and the last two no 'o'. */
  lemma DeliveryQuestionLacksCost()
    ensures !Contains(Lower(DeliveryQuestion), "cost")
  {
    FiveWordsLack("Does", "delivery", "time", "affect", "churn?", "cost", 0, 1);
  }

  /** A query that fires the problem and hypotheses rules and not the
      constraints rule retrieves exactly the problem statement followed by
      the hypotheses. */
  lemma ProblemAndHypothesesContext(q: string)
    requires Selects(Problem, q) && Selects(Hypotheses, q) && !Selects(Constraints, q)
    ensures RelevantKeys(q) == [Problem, Hypotheses]
    ensures Retrieve(q) == ProblemText + "\n" + HypothesesText
  {
    assert RankOrdered([Problem, Hypotheses]);
    RelevantKeysUnique(q, [Problem, Hypotheses]);
    var ts := [ProblemText, HypothesesText];
    assert Texts(DocumentTable(), [Problem, Hypotheses]) == ts;
    assert ts[1..] == [HypothesesText];
    assert Join(ts, "\n") == ProblemText + "\n" + HypothesesText;
  }

  /** The demonstration question retrieves exactly the problem statement
      followed by the hypotheses. */
  lemma DeliveryQueryContext()
    ensures RelevantKeys(DeliveryQuestion) == [Problem, Hypotheses]
    ensures Retrieve(DeliveryQuestion) == ProblemText + "\n" + HypothesesText
  {
    DeliveryQuestionHas();
    DeliveryQuestionLacksBudget();
    DeliveryQuestionLacksCost();
    ProblemAndHypothesesContext(DeliveryQuestion);
  }

  /** A greeting fires no rule and retrieves the background alone. */
  lemma GreetingRetrievesBackground()
    ensures RelevantKeys("Hi") == [Background]
  {
    RetrievalRules("Hi");
  }

  /** `BusinessKnowledgeBase`: the document table, set once when the
      knowledge base is built and never changed afterwards. */
  class BusinessKnowledgeBase {
    var documents: map<DocKey, string>

    ghost predicate Valid()
      reads this
    {
      documents == DocumentTable()
    }

    constructor ()
      ensures Valid()
    {
      documents := DocumentTable();
    }

    /** `retrieve_context`: lower-cases the query, appends the document of
        each firing rule in turn, falls back to the background document, and
        joins the result with newlines. It changes nothing, so the same query
        always retrieves the same context. */
    method RetrieveContext(query: string) returns (context: string)
      requires Valid()
      ensures context == Retrieve(query)
    {
      var q := Lower(query);
      var relevantDocs: seq<string> := [];
      ghost var keys: seq<DocKey> := [];
      if Contains(q, "churn") || Contains(q, "problem") {
        TextsAppend(documents, keys, Problem);
        relevantDocs := relevantDocs + [documents[Problem]];
        keys := keys + [Problem];
      }
      ghost var p := keys;
      if Contains(q, "delivery") || Contains(q, "discount") || Contains(q, "suspect") {
        TextsAppend(documents, keys, Hypotheses);
        relevantDocs := relevantDocs + [documents[Hypotheses]];
        keys := keys + [Hypotheses];
      }
      ghost var ph := keys;
      if Contains(q, "budget") || Contains(q, "cost") {
        TextsAppend(documents, keys, Constraints);
        relevantDocs := relevantDocs + [documents[Constraints]];
        keys := keys + [Constraints];
      }
      if relevantDocs == [] {
        TextsAppend(documents, keys, Background);
        relevantDocs := relevantDocs + [documents[Background]];
        keys := keys + [Background];
      }
      RelevantKeysByPicks(query, p, ph, keys);
      context := Join(relevantDocs, "\n");
    }
  }
}
