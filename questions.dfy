/** Question generation of the interview coach (`generate_interview_question`
    in backend/agent.py): the canned catalog used when no API key is set, the
    random pick from it, and the constant question returned when the
    language-model agent fails. */
module Questions {

  import opened Wrappers
  import opened Schemas
  import opened Config

  // ---------------------------------------------------------------------
  // The catalog: role -> difficulty -> three questions
  // ---------------------------------------------------------------------

  const SdeEasy: seq<string> := [
    "Explain the difference between a process and a thread.",
    "What is Polymorphism? Give a real-world example.",
    "Explain the concept of a Hash Map and its time complexity."]
  const SdeMedium: seq<string> := [
    "How would you design a URL shortening service like bit.ly?",
    "Explain the difference between TCP and UDP.",
    "What is a Deadlock and how can you prevent it?"]
  const SdeHard: seq<string> := [
    "Discuss the trade-offs between eventual consistency and strong consistency in distributed systems.",
    "How would you design a rate limiter for a high-traffic API?",
    "Explain the internal working of a Garbage Collector in your preferred language."]

  const DataAnalystEasy: seq<string> := [
    "What is the difference between WHERE and HAVING clauses in SQL?",
    "Explain the difference between inner join, left join, and right join.",
    "What are the different types of data visualization?"]
  const DataAnalystMedium: seq<string> := [
    "Explain how you would handle missing data in a dataset.",
    "What is the difference between correlation and causation?",
    "How do you detect outliers in a dataset?"]
  const DataAnalystHard: seq<string> := [
    "Describe a time you found a significant insight in data that contradicted the business intuition.",
    "How would you design an A/B test for a new feature?",
    "Explain the concept of p-value to a non-technical audience."]

  const SdetEasy: seq<string> := [
    "What is the difference between black-box and white-box testing?",
    "What is a regression test?",
    "Explain the software testing life cycle (STLC)."]
  const SdetMedium: seq<string> := [
    "How would you design an automated test suite for an e-commerce checkout flow?",
    "What is the Page Object Model (POM) pattern?",
    "Explain the difference between continuous integration and continuous deployment."]
  const SdetHard: seq<string> := [
    "Explain how you would test a distributed system for race conditions.",
    "How do you handle flaky tests in your automation suite?",
    "Design a performance testing strategy for a microservices architecture."]

  const SdeQuestions: map<string, seq<string>> :=
    map["Easy" := SdeEasy, "Medium" := SdeMedium, "Hard" := SdeHard]
  const DataAnalystQuestions: map<string, seq<string>> :=
    map["Easy" := DataAnalystEasy, "Medium" := DataAnalystMedium, "Hard" := DataAnalystHard]
  const SdetQuestions: map<string, seq<string>> :=
    map["Easy" := SdetEasy, "Medium" := SdetMedium, "Hard" := SdetHard]

  const Catalog: map<string, map<string, seq<string>>> := map[
    "SDE" := SdeQuestions,
    "Data Analyst" := DataAnalystQuestions,
    "SDET" := SdetQuestions]

  const Roles: set<string> := {"SDE", "Data Analyst", "SDET"}
  const Difficulties: set<string> := {"Easy", "Medium", "Hard"}

  /** A role and a difficulty the catalog has questions for. */
  predicate InCatalog(role: string, difficulty: string) {
    role in Catalog && difficulty in Catalog[role]
  }

  /** The catalog covers every role and difficulty the request schema admits,
      with three questions for each pair. */
  lemma CatalogShape()
    ensures Catalog.Keys == Roles
    ensures forall role :: role in Catalog ==> Catalog[role].Keys == Difficulties
    ensures forall role, difficulty :: InCatalog(role, difficulty) ==> |Catalog[role][difficulty]| == 3
  {
    assert Catalog["SDE"] == SdeQuestions;
    assert Catalog["Data Analyst"] == DataAnalystQuestions;
    assert Catalog["SDET"] == SdetQuestions;
  }

  // ---------------------------------------------------------------------
  // The no-key path
  // ---------------------------------------------------------------------

  /** `dict.get(key, default)`. */
  function Get<K, V>(m: map<K, V>, key: K, default: V): V {
    if key in m then m[key] else default
  }

  /** The generic question used for a role or difficulty outside the catalog. */
  function GenericQuestion(role: string): string {
    "Tell me about a challenge you faced as a " + role + "."
  }

  /** The list the random pick draws from:
      `pool.get(role, {}).get(difficulty, [GenericQuestion(role)])`. */
  function QuestionPool(role: string, difficulty: string): (pool: seq<string>)
    ensures InCatalog(role, difficulty) ==> pool == Catalog[role][difficulty] && |pool| == 3
    ensures !InCatalog(role, difficulty) ==> pool == [GenericQuestion(role)]
  {
    CatalogShape();
    Get(Get(Catalog, role, map[]), difficulty, [GenericQuestion(role)])
  }

  const MockKeyPoints: seq<string> := ["Key concept definition", "Real-world example", "Trade-off analysis"]

  function MockContext(role: string, difficulty: string): string {
    "Mock Question (AI key missing) - " + difficulty + " level - " + role
  }

  /** The question returned without an API key; `pick` is the index that
      `random.choice` draws, so it must lie within the pool. */
  function MockQuestion(role: string, difficulty: string, pick: nat): (q: InterviewQuestion)
    requires pick < |QuestionPool(role, difficulty)|
    ensures q.question in QuestionPool(role, difficulty)
    ensures q.context == Some(MockContext(role, difficulty))
    ensures q.expectedKeyPoints == MockKeyPoints
  {
    InterviewQuestion(QuestionPool(role, difficulty)[pick], Some(MockContext(role, difficulty)), MockKeyPoints)
  }

  /** For a catalog pair the question comes from exactly that pair's list. */
  lemma CatalogPairDrawsFromItsList(role: string, difficulty: string, pick: nat)
    requires InCatalog(role, difficulty) && pick < |Catalog[role][difficulty]|
    ensures MockQuestion(role, difficulty, pick).question == Catalog[role][difficulty][pick]
    ensures MockQuestion(role, difficulty, pick).question in Catalog[role][difficulty]
  {
  }

  /** Outside the catalog the question is the generic one, naming the role. */
  lemma UnknownPairGivesGenericQuestion(role: string, difficulty: string, pick: nat)
    requires !InCatalog(role, difficulty) && pick < |QuestionPool(role, difficulty)|
    ensures pick == 0
    ensures MockQuestion(role, difficulty, pick).question == "Tell me about a challenge you faced as a " + role + "."
  {
  }

  /** Every question of the pool is the result of some pick. */
  lemma EveryPoolQuestionCanBePicked(role: string, difficulty: string, question: string)
    requires question in QuestionPool(role, difficulty)
    ensures exists pick: nat :: pick < |QuestionPool(role, difficulty)| && MockQuestion(role, difficulty, pick).question == question
  {
    var pool := QuestionPool(role, difficulty);
    var pick :| 0 <= pick < |pool| && pool[pick] == question;
    assert MockQuestion(role, difficulty, pick).question == question;
  }

  // ---------------------------------------------------------------------
  // The agent-failure path
  // ---------------------------------------------------------------------

  /** The question returned when the agent call raises. */
  function AgentErrorQuestion(role: string): (q: InterviewQuestion)
    ensures q.question == "Describe the core responsibilities of a " + role + "."
    ensures q.context == Some("Fallback Question (AI Error)")
    ensures q.expectedKeyPoints == ["Responsibilities", "Skills", "Impact"]
  {
    InterviewQuestion(
      "Describe the core responsibilities of a " + role + ".",
      Some("Fallback Question (AI Error)"),
      ["Responsibilities", "Skills", "Impact"])
  }

  /** The two fallbacks are told apart by their context. */
  lemma FallbackTiersDiffer(role: string, role': string, difficulty: string, pick: nat)
    requires pick < |QuestionPool(role, difficulty)|
    ensures AgentErrorQuestion(role') != MockQuestion(role, difficulty, pick)
  {
    assert AgentErrorQuestion(role').context.value[0] == 'F';
    assert MockQuestion(role, difficulty, pick).context.value[0] == 'M';
  }

  // ---------------------------------------------------------------------
  // The operation
  // ---------------------------------------------------------------------

  /** `generate_interview_question(role, difficulty)`. `apiKey` is the
      configured key, `pick` the index `random.choice` draws and `agentReply`
      the outcome of the agent call (`None` when it raises). */
  function GenerateInterviewQuestion(
    apiKey: Option<string>, role: string, difficulty: string, pick: nat,
    agentReply: Option<InterviewQuestion>): (q: InterviewQuestion)
    requires KeyMissing(apiKey) ==> pick < |QuestionPool(role, difficulty)|
    ensures KeyMissing(apiKey) ==>
      && q.question in QuestionPool(role, difficulty)
      && q.context == Some(MockContext(role, difficulty))
      && q.expectedKeyPoints == MockKeyPoints
    ensures !KeyMissing(apiKey) && agentReply.None? ==> q == AgentErrorQuestion(role)
    ensures !KeyMissing(apiKey) && agentReply.Some? ==> q == agentReply.value
  {
    if KeyMissing(apiKey) then MockQuestion(role, difficulty, pick)
    else if agentReply.None? then AgentErrorQuestion(role)
    else agentReply.value
  }

  /** With a key set, a failed agent call gives a question that depends on
      the role alone: neither the difficulty nor the catalog is consulted. */
  lemma AgentErrorIgnoresCatalog(
    apiKey: Option<string>, role: string, difficulty: string, difficulty': string, pick: nat, pick': nat)
    requires !KeyMissing(apiKey)
    ensures GenerateInterviewQuestion(apiKey, role, difficulty, pick, None)
         == GenerateInterviewQuestion(apiKey, role, difficulty', pick', None)
  {
  }
}
