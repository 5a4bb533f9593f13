/**
 * The constant catalogue of src/lib/mockData.ts: companies, roles, the two
 * canned past interviews and the scripted question lists per role.
 */
module MockData {

  datatype Company = Company(id: string, name: string, logo: string)

  datatype Role = Role(id: string, title: string)

  /** One answered question of a past interview, with its canned score. */
  datatype Question = Question(id: string, text: string, userAnswer: string, score: nat, feedback: string)

  /** A past interview as the results page shows it (`Interview` in the source). */
  datatype InterviewRecord = InterviewRecord(
    id: string,
    companyId: string,
    roleId: string,
    date: string,
    overallScore: nat,
    technicalScore: nat,
    communicationScore: nat,
    problemSolvingScore: nat,
    questions: seq<Question>)

  const companies: seq<Company> := [
    Company("google", "Google", "\U{1F50D}"),
    Company("amazon", "Amazon", "\U{1F4E6}"),
    Company("microsoft", "Microsoft", "\U{1FA9F}"),
    Company("meta", "Meta", "\U{1F4D8}"),
    Company("apple", "Apple", "\U{1F34E}"),
    Company("netflix", "Netflix", "\U{1F3AC}")
  ]

  const roles: seq<Role> := [
    Role("swe", "Software Engineer"),
    Role("pm", "Product Manager"),
    Role("ds", "Data Scientist"),
    Role("designer", "Product Designer"),
    Role("devops", "DevOps Engineer")
  ]

  const mockInterviews: seq<InterviewRecord> := [
    InterviewRecord("1", "google", "swe", "2025-01-15", 85, 88, 82, 85, [
      Question("q1",
        "Tell me about a challenging technical problem you solved recently.",
        "I recently optimized our database queries to reduce response time by 60%. The challenge was identifying the bottleneck without disrupting production. I used query profiling tools to analyze slow queries, added strategic indexes, and implemented caching for frequently accessed data. I also worked with the team to refactor some N+1 query patterns in our ORM code.",
        90,
        "Excellent answer with specific metrics and clear problem-solving approach. You demonstrated systematic debugging, performance optimization skills, and team collaboration. The 60% improvement is impressive and quantifiable. To make it even stronger, you could briefly mention how you validated the changes and ensured no regressions."),
      Question("q2",
        "How would you design a URL shortener service?",
        "I would use a hash function to generate short codes from the original URLs, possibly using base62 encoding to create human-friendly short codes. For storage, I'd use a distributed database like Cassandra for high availability, with Redis caching for frequently accessed URLs. I would implement rate limiting using token buckets to prevent abuse, and add analytics tracking for click metrics. For scalability, I'd use load balancers and horizontal scaling.",
        85,
        "Good system design understanding with attention to key components like caching, rate limiting, and scalability. You covered the main architectural decisions well. Consider discussing collision handling strategies, TTL for expired URLs, custom domain support, and how you'd handle peak traffic scenarios. Also think about monitoring and observability."),
      Question("q3",
        "Explain the difference between REST and GraphQL.",
        "REST uses fixed endpoints for resources and returns all data for that endpoint, which can lead to over-fetching or under-fetching. GraphQL provides a single endpoint where clients can request exactly the data they need using a query language. GraphQL offers strong typing through schemas, built-in documentation, and real-time updates via subscriptions. However, REST is simpler to implement and has better caching support out of the box, while GraphQL has a steeper learning curve and requires more careful query optimization to avoid N+1 problems.",
        88,
        "Clear and comprehensive comparison with practical insights. You demonstrated understanding of both technologies' strengths and trade-offs. Well articulated with real-world considerations. To enhance further, you could mention when you'd choose one over the other based on specific use cases.")
    ]),
    InterviewRecord("2", "amazon", "pm", "2025-01-10", 78, 75, 80, 79, [
      Question("q4",
        "How would you prioritize features for a new product launch?",
        "I would use a framework like RICE to score features based on reach, impact, confidence, and effort. I start by gathering input from customers, stakeholders, and the engineering team. Then I evaluate each feature against our business objectives and user needs. I also consider technical dependencies and market timing. After scoring, I create a roadmap that balances quick wins with longer-term strategic initiatives, and I communicate trade-offs transparently with all stakeholders.",
        82,
        "Good framework knowledge and comprehensive process. You showed understanding of multiple inputs and stakeholder management. The mention of trade-off communication is valuable. To strengthen, provide a specific example of how you applied this framework and what the outcome was. Also consider mentioning how you validate priorities with user research or data."),
      Question("q5",
        "Tell me about a time you had to make a decision with incomplete information.",
        "During a product launch, we had to decide on pricing without full market data due to time constraints. I gathered all available data including competitor pricing, customer feedback from early users, and our cost structure. I consulted with sales, marketing, and finance teams to get their perspectives. We decided to launch with a competitive middle-tier price with the plan to adjust based on customer response. I set up analytics to track conversion rates and customer feedback closely. After two months, we had enough data to optimize pricing and increase it by 15% without impacting conversions.",
        75,
        "Good example showing practical decision-making under uncertainty. You demonstrated collaboration and data-driven iteration. The outcome with the 15% price increase validates your approach. To improve, discuss more about the framework you used to make the decision, what your hypothesis was, and how you mitigated risks of getting the pricing wrong initially.")
    ])
  ]

  /** The scripted prompts, keyed by role id; only three roles have a list. */
  const sampleQuestions: map<string, seq<string>> := map[
    "swe" := [
      "Tell me about a challenging technical problem you solved recently.",
      "How would you design a URL shortener service?",
      "Explain the difference between REST and GraphQL.",
      "What's your experience with distributed systems?",
      "How do you approach debugging a production issue?"
    ],
    "pm" := [
      "How would you prioritize features for a new product launch?",
      "Tell me about a time you had to make a decision with incomplete information.",
      "How do you handle conflicting stakeholder requirements?",
      "Describe your approach to user research.",
      "How would you measure the success of a new feature?"
    ],
    "ds" := [
      "Explain how you would approach A/B testing for a new feature.",
      "What's your experience with machine learning models?",
      "How do you communicate technical findings to non-technical stakeholders?",
      "Describe a time you identified an important insight from data.",
      "What statistical methods do you commonly use?"
    ]
  ]

  /** No two entries of `ids` are equal. */
  predicate Distinct(ids: seq<string>)
  {
    forall i, j :: 0 <= i < j < |ids| ==> ids[i] != ids[j]
  }

  function CompanyIds(): (ids: seq<string>)
    ensures |ids| == |companies|
    ensures forall i :: 0 <= i < |ids| ==> ids[i] == companies[i].id
  {
    seq(|companies|, i requires 0 <= i < |companies| => companies[i].id)
  }

  function RoleIds(): (ids: seq<string>)
    ensures |ids| == |roles|
    ensures forall i :: 0 <= i < |roles| ==> ids[i] == roles[i].id
  {
    seq(|roles|, i requires 0 <= i < |roles| => roles[i].id)
  }

  function InterviewIds(): (ids: seq<string>)
    ensures |ids| == |mockInterviews|
    ensures forall i :: 0 <= i < |mockInterviews| ==> ids[i] == mockInterviews[i].id
  {
    seq(|mockInterviews|, i requires 0 <= i < |mockInterviews| => mockInterviews[i].id)
  }

  function QuestionIdsOf(qs: seq<Question>): (ids: seq<string>)
    ensures |ids| == |qs|
    ensures forall i :: 0 <= i < |qs| ==> ids[i] == qs[i].id
  {
    seq(|qs|, i requires 0 <= i < |qs| => qs[i].id)
  }

  /** The ids of the questions of `records`, in order, one interview after another. */
  function AllQuestionIds(records: seq<InterviewRecord>): (ids: seq<string>)
  {
    if records == [] then [] else QuestionIdsOf(records[0].questions) + AllQuestionIds(records[1..])
  }

  /** Company ids are pairwise distinct. */
  lemma CompanyIdsDistinct()
    ensures Distinct(CompanyIds())
  {
  }

  /** Role ids are pairwise distinct. */
  lemma RoleIdsDistinct()
    ensures Distinct(RoleIds())
  {
  }

  /**
   * Exactly the roles `swe`, `pm` and `ds` have a question list, each of five
   * prompts; `designer` and `devops` are listed roles without one.
   */
  lemma QuestionListsByRole()
    ensures sampleQuestions.Keys == {"swe", "pm", "ds"}
    ensures forall k :: k in sampleQuestions ==> |sampleQuestions[k]| == 5
    ensures forall k :: k in sampleQuestions ==> k in RoleIds()
    ensures "designer" in RoleIds() && "designer" !in sampleQuestions
    ensures "devops" in RoleIds() && "devops" !in sampleQuestions
  {
    assert RoleIds() == ["swe", "pm", "ds", "designer", "devops"];
  }

  /** Every past interview names a listed company and a listed role. */
  lemma MockInterviewsReferenceCatalogue()
    ensures forall r :: r in mockInterviews ==> r.companyId in CompanyIds() && r.roleId in RoleIds()
  {
    assert CompanyIds() == ["google", "amazon", "microsoft", "meta", "apple", "netflix"];
    assert RoleIds() == ["swe", "pm", "ds", "designer", "devops"];
  }

  /** Past interview ids are distinct. */
  lemma MockInterviewIdsDistinct()
    ensures Distinct(InterviewIds())
  {
  }

  /** Question ids are distinct across all past interviews. */
  lemma MockQuestionIdsDistinct()
    ensures Distinct(AllQuestionIds(mockInterviews))
  {
    var first, second := mockInterviews[0], mockInterviews[1];
    TwoRecordIds(first, second);
    assert mockInterviews == [first, second];
    var a := QuestionIdsOf(first.questions);
    var b := QuestionIdsOf(second.questions);
    assert |a| == 3 && a[0] == "q1" && a[1] == "q2" && a[2] == "q3";
    assert |b| == 2 && b[0] == "q4" && b[1] == "q5";
    assert a + b == ["q1", "q2", "q3", "q4", "q5"];
  }

  lemma TwoRecordIds(first: InterviewRecord, second: InterviewRecord)
    ensures AllQuestionIds([first, second]) == QuestionIdsOf(first.questions) + QuestionIdsOf(second.questions)
  {
    assert [first, second][1..] == [second];
    assert [second][1..] == [];
    assert AllQuestionIds([second]) == QuestionIdsOf(second.questions) + [];
    assert QuestionIdsOf(second.questions) + [] == QuestionIdsOf(second.questions);
  }

  /** Every canned score lies in 0..100. */
  lemma MockScoresArePercentages()
    ensures forall r :: r in mockInterviews ==>
      r.overallScore <= 100 && r.technicalScore <= 100 && r.communicationScore <= 100 && r.problemSolvingScore <= 100
    ensures forall r, q :: r in mockInterviews && q in r.questions ==> q.score <= 100
  {
  }
}
