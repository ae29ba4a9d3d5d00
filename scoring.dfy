/** Answer evaluation of the interview coach (`evaluate_interview_answer` in
    backend/agent.py): the word-count and keyword heuristic used when no API
    key is set, and the constant result returned when the language-model
    agent fails. */
module Scoring {

  import opened Wrappers
  import opened Schemas
  import opened Config
  import opened Text

  // ---------------------------------------------------------------------
  // Length tiers
  // ---------------------------------------------------------------------

  /** What the word count alone decides: a base score, a message and the
      points reported as missing. */
  datatype Tier = Tier(score: int, message: string, missing: seq<string>)

  const ShortTier := Tier(3,
    "Your answer is too short. Please elaborate and provide more details.",
    ["Depth of explanation", "Examples", "Technical terminology"])

  const MediumTier := Tier(6,
    "Good start, but you could provide more specific examples to strengthen your point.",
    ["Concrete examples", "Trade-offs"])

  const LongTier := Tier(8,
    "Strong answer! You covered the main points well. To get a perfect score, mention edge cases.",
    ["Edge cases", "Scalability considerations"])

  /** Fewer than 10 words is short, fewer than 30 medium, anything else long. */
  function LengthTier(wordCount: nat): (t: Tier)
    ensures t.score in {3, 6, 8}
    ensures t.score == 3 <==> wordCount < 10
    ensures t.score == 8 <==> 30 <= wordCount
  {
    if wordCount < 10 then ShortTier
    else if wordCount < 30 then MediumTier
    else LongTier
  }

  /** A longer answer never lands in a lower tier. */
  lemma LengthTierMonotone(m: nat, n: nat)
    requires m <= n
    ensures LengthTier(m).score <= LengthTier(n).score
  {
  }

  // ---------------------------------------------------------------------
  // Keyword boost
  // ---------------------------------------------------------------------

  const TechKeywords: seq<string> := ["scale", "latency", "consistency", "testing", "data", "optimization", "trade-off"]

  /** `any(k in text for k in keywords)`, tried left to right. */
  predicate AnyOccurs(keywords: seq<string>, text: string) {
    keywords != [] && (Contains(text, keywords[0]) || AnyOccurs(keywords[1..], text))
  }

  /** The keyword test of the heuristic on the lowered answer. */
  predicate HasKeyword(answer: string) {
    AnyOccurs(TechKeywords, ToLower(answer))
  }

  /** `any` succeeds exactly when some keyword of the list occurs in the text. */
  lemma {:induction false} AnyOccursIff(keywords: seq<string>, text: string)
    ensures AnyOccurs(keywords, text) <==> exists k, i :: k in keywords && OccursAt(text, k, i)
  {
    if keywords != [] {
      AnyOccursIff(keywords[1..], text);
      ContainsIff(text, keywords[0]);
      if k, i :| k in keywords && OccursAt(text, k, i) {
        if k != keywords[0] {
          assert k in keywords[1..];
        }
      }
      if k, i :| k in keywords[1..] && OccursAt(text, k, i) {
        assert k in keywords;
      }
    }
  }

  /** The boost fires exactly when some keyword occurs, as a substring, in
      the lowered answer. */
  lemma KeywordBoostIff(answer: string)
    ensures HasKeyword(answer) <==> exists k, i :: k in TechKeywords && OccursAt(ToLower(answer), k, i)
  {
    var keywords := TechKeywords;
    AnyOccursIff(keywords, ToLower(answer));
    assert HasKeyword(answer) == AnyOccurs(keywords, ToLower(answer));
  }

  /** No keyword holds whitespace at its first position. */
  lemma KeywordsStartWithLetter()
    ensures forall k :: k in TechKeywords ==> k != [] && 'a' <= k[0] <= 'z'
  {
  }

  // ---------------------------------------------------------------------
  // The no-key evaluation
  // ---------------------------------------------------------------------

  const MockPrefix := "Mock Evaluation: "
  const VocabularyNote := " Good use of technical vocabulary."
  const BasisNote := " (Based on answer length & keywords)"
  const ModelAnswerOpening := "A great answer for '"
  const ModelAnswerClosing := "' would involve defining the core concept, giving a concrete example, and discussing pros/cons. For example..."
  const Tips: seq<string> := ["Use the STAR method", "Be concise but thorough", "Focus on impact"]

  function Min(a: int, b: int): int {
    if a <= b then a else b
  }

  /** The heuristic result for an answer when no API key is set. */
  function MockEvaluation(question: string, role: string, difficulty: string, userAnswer: string): (r: EvaluationResult)
    ensures r.score == LengthTier(WordCount(userAnswer)).score + (if HasKeyword(userAnswer) then 1 else 0)
    ensures r.score in {3, 4, 6, 7, 8, 9} && 0 <= r.score <= 10
    ensures r.feedback == MockPrefix + LengthTier(WordCount(userAnswer)).message + (if HasKeyword(userAnswer) then VocabularyNote else "") + BasisNote
    ensures r.missingKeyPoints == LengthTier(WordCount(userAnswer)).missing
    ensures r.tips == Tips
    ensures OccursAt(r.modelAnswer, question, |ModelAnswerOpening|)
  {
    var tier := LengthTier(WordCount(userAnswer));
    var boosted := HasKeyword(userAnswer);
    var score := if boosted then Min(10, tier.score + 1) else tier.score;
    var note := if boosted then VocabularyNote else "";
    OccursInThreeParts(ModelAnswerOpening, question, ModelAnswerClosing);
    EvaluationResult(
      score,
      MockPrefix + tier.message + note + BasisNote,
      ModelAnswerOpening + question + ModelAnswerClosing,
      tier.missing,
      Tips)
  }

  /** The three length tiers as graded: base score (plus at most the one
      boost point) and the missing points each tier reports. */
  lemma WordCountTiers(question: string, role: string, difficulty: string, userAnswer: string)
    ensures var r := MockEvaluation(question, role, difficulty, userAnswer);
      var n := WordCount(userAnswer);
      && (n < 10 ==>
            r.score in {3, 4} && r.missingKeyPoints == ["Depth of explanation", "Examples", "Technical terminology"])
      && (10 <= n < 30 ==>
            r.score in {6, 7} && r.missingKeyPoints == ["Concrete examples", "Trade-offs"])
      && (30 <= n ==>
            r.score in {8, 9} && r.missingKeyPoints == ["Edge cases", "Scalability considerations"])
  {
  }

  /** Role and difficulty have no influence on the heuristic result. */
  lemma MockEvaluationIgnoresRoleAndDifficulty(
    question: string, role: string, role': string, difficulty: string, difficulty': string, userAnswer: string)
    ensures MockEvaluation(question, role, difficulty, userAnswer) == MockEvaluation(question, role', difficulty', userAnswer)
  {
  }

  /** The heuristic is case-insensitive: answers that lower to the same text
      (such as "SCALE" and "scale") are graded identically. */
  lemma MockEvaluationIgnoresCase(
    question: string, role: string, difficulty: string, answer: string, answer': string)
    requires ToLower(answer) == ToLower(answer')
    ensures MockEvaluation(question, role, difficulty, answer) == MockEvaluation(question, role, difficulty, answer')
  {
    LowerKeepsSpacing(answer, answer');
    SameSpacingSameWordCount(answer, answer');
  }

  /** No keyword occurs in an empty or whitespace-only answer. */
  lemma BlankHasNoKeyword(userAnswer: string)
    requires forall i :: 0 <= i < |userAnswer| ==> IsSpace(userAnswer[i])
    ensures !HasKeyword(userAnswer)
  {
    var lowered := ToLower(userAnswer);
    assert forall i :: 0 <= i < |lowered| ==> IsSpace(lowered[i]);
    KeywordBoostIff(userAnswer);
    KeywordsStartWithLetter();
    forall k, i | k in TechKeywords
      ensures !OccursAt(lowered, k, i)
    {
      BlankHasNoOccurrence(lowered, k, i);
    }
  }

  /** An empty or whitespace-only answer has no words and no keyword, so it
      gets exactly the short-tier result with score 3. */
  lemma BlankAnswerScoresThree(question: string, role: string, difficulty: string, userAnswer: string)
    requires forall i :: 0 <= i < |userAnswer| ==> IsSpace(userAnswer[i])
    ensures var r := MockEvaluation(question, role, difficulty, userAnswer);
      && r.score == 3
      && r.missingKeyPoints == ["Depth of explanation", "Examples", "Technical terminology"]
      && r.feedback == MockPrefix + ShortTier.message + BasisNote
  {
    BlankHasNoWords(userAnswer);
    BlankHasNoKeyword(userAnswer);
    assert MockPrefix + ShortTier.message + "" == MockPrefix + ShortTier.message;
  }

  /** Any one keyword, in any case and anywhere in the answer, triggers the boost. */
  lemma KeywordTriggersBoost(answer: string, keyword: string)
    requires keyword in TechKeywords && Contains(ToLower(answer), keyword)
    ensures HasKeyword(answer)
  {
    ContainsIff(ToLower(answer), keyword);
    KeywordBoostIff(answer);
  }

  /** A long answer that mentions "latency" in any case scores 9, and its
      feedback carries both the strong-answer message and the vocabulary note. */
  lemma LongAnswerWithKeywordScoresNine(question: string, role: string, difficulty: string, userAnswer: string)
    requires WordCount(userAnswer) >= 30
    requires Contains(ToLower(userAnswer), "latency")
    ensures var r := MockEvaluation(question, role, difficulty, userAnswer);
      && r.score == 9
      && OccursAt(r.feedback, LongTier.message, |MockPrefix|)
      && OccursAt(r.feedback, VocabularyNote, |MockPrefix| + |LongTier.message|)
  {
    KeywordTriggersBoost(userAnswer, "latency");
    OccursInFourParts(MockPrefix, LongTier.message, VocabularyNote, BasisNote);
  }

  // ---------------------------------------------------------------------
  // The agent-failure evaluation
  // ---------------------------------------------------------------------

  /** The result returned when the agent call raises. */
  function AgentErrorEvaluation(): (r: EvaluationResult)
    ensures r.score == 5
    ensures r.feedback == "AI service unavailable. Please check backend logs."
    ensures r.modelAnswer == "Unavailable"
    ensures r.missingKeyPoints == [] && r.tips == []
  {
    EvaluationResult(5, "AI service unavailable. Please check backend logs.", "Unavailable", [], [])
  }

  /** The two fallbacks can be told apart by the score alone: the heuristic
      never gives 5. */
  lemma FallbackTiersDiffer(question: string, role: string, difficulty: string, userAnswer: string)
    ensures AgentErrorEvaluation().score != MockEvaluation(question, role, difficulty, userAnswer).score
  {
  }

  // ---------------------------------------------------------------------
  // The operation
  // ---------------------------------------------------------------------

  /** `evaluate_interview_answer(question, role, difficulty, user_answer)`.
      `apiKey` is the configured key and `agentReply` the outcome of the agent
      call (`None` when it raises); a reply is returned as it is, its score
      unchecked. */
  function EvaluateInterviewAnswer(
    apiKey: Option<string>, question: string, role: string, difficulty: string, userAnswer: string,
    agentReply: Option<EvaluationResult>): (r: EvaluationResult)
    ensures KeyMissing(apiKey) ==> r == MockEvaluation(question, role, difficulty, userAnswer)
    ensures !KeyMissing(apiKey) && agentReply.None? ==> r == AgentErrorEvaluation()
    ensures !KeyMissing(apiKey) && agentReply.Some? ==> r == agentReply.value
    ensures KeyMissing(apiKey) || agentReply.None? ==> 0 <= r.score <= 10
  {
    if KeyMissing(apiKey) then MockEvaluation(question, role, difficulty, userAnswer)
    else if agentReply.None? then AgentErrorEvaluation()
    else agentReply.value
  }
}
