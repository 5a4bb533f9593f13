/**
 * The results page of src/pages/Results.tsx: the score-band colouring (in its
 * two copies), the lookup of the past interview named by the route, and what
 * the page shows for it.
 */
module Results {
  import opened Wrappers
  import opened MockData

  const Accent: string := "text-accent"
  const Primary: string := "text-primary"
  const Destructive: string := "text-destructive"

  /** `getScoreColor` of the page: the band a percentage falls in. */
  function ScoreColor(score: real): (c: string)
    ensures c == Accent <==> score >= 85.0
    ensures c == Primary <==> 70.0 <= score < 85.0
    ensures c == Destructive <==> score < 70.0
  {
    if score >= 85.0 then Accent
    else if score >= 70.0 then Primary
    else Destructive
  }

  /** The copy of `getScoreColor` local to the `ScoreCard` component. */
  function ScoreCardColor(score: real): (c: string)
    ensures c in {Accent, Primary, Destructive}
  {
    if score >= 85.0 then "text-accent"
    else if score >= 70.0 then "text-primary"
    else "text-destructive"
  }

  /** Both copies colour every score alike. */
  lemma ScoreCardColorAgrees(score: real)
    ensures ScoreCardColor(score) == ScoreColor(score)
  {
  }

  /** Bands ordered from worst to best. */
  function BandRank(color: string): (rank: nat)
    ensures rank <= 2
  {
    if color == Accent then 2 else if color == Primary then 1 else 0
  }

  /** Raising a score never moves it into a lower band. */
  lemma ScoreColorMonotone(low: real, high: real)
    requires low <= high
    ensures BandRank(ScoreColor(low)) <= BandRank(ScoreColor(high))
  {
  }

  /**
   * `Array.prototype.findIndex`: the position of the first element that
   * `matches`, or None when no element does.
   */
  function FindIndex<T>(xs: seq<T>, matches: T -> bool): (r: Option<nat>)
    ensures r.None? <==> forall i :: 0 <= i < |xs| ==> !matches(xs[i])
    ensures r.Some? ==> r.value < |xs| && matches(xs[r.value])
    ensures r.Some? ==> forall j :: 0 <= j < r.value ==> !matches(xs[j])
  {
    if xs == [] then None
    else if matches(xs[0]) then Some(0)
    else
      match FindIndex(xs[1..], matches)
      case None => None
      case Some(k) => Some(k + 1)
  }

  /** `Array.prototype.find`: the first element that `matches`, if any. */
  function Find<T>(xs: seq<T>, matches: T -> bool): (r: Option<T>)
    ensures r.None? <==> forall i :: 0 <= i < |xs| ==> !matches(xs[i])
    ensures r.Some? ==> exists i :: 0 <= i < |xs| && xs[i] == r.value && matches(xs[i])
                                  && (forall j :: 0 <= j < i ==> !matches(xs[j]))
  {
    match FindIndex(xs, matches)
    case None => None
    case Some(k) => Some(xs[k])
  }

  /** One item of the "Detailed Answers & Feedback" list. */
  datatype QuestionRow = QuestionRow(number: nat, question: Question, color: string)

  /** One of the three score cards. */
  datatype ScoreCardView = ScoreCardView(title: string, score: nat, color: string)

  datatype ResultsView =
    | NotFound
    | Report(
        interview: InterviewRecord,
        company: Option<Company>,
        role: Option<Role>,
        overallColor: string,
        cards: seq<ScoreCardView>,
        rows: seq<QuestionRow>)

  /** The question list as the page numbers and colours it. */
  function NumberedRows(questions: seq<Question>): (rows: seq<QuestionRow>)
    ensures |rows| == |questions|
    ensures forall i :: 0 <= i < |rows| ==>
      rows[i].number == i + 1 && rows[i].question == questions[i]
      && rows[i].color == ScoreColor(questions[i].score as real)
  {
    seq(|questions|, i requires 0 <= i < |questions| =>
      QuestionRow(i + 1, questions[i], ScoreColor(questions[i].score as real)))
  }

  /** A row's number locates its question in the list, and numbers are strictly increasing. */
  lemma RowNumbersLocateQuestions(questions: seq<Question>)
    ensures forall i :: 0 <= i < |questions| ==>
      1 <= NumberedRows(questions)[i].number <= |questions|
      && questions[NumberedRows(questions)[i].number - 1] == NumberedRows(questions)[i].question
    ensures forall i, j :: 0 <= i < j < |questions| ==>
      NumberedRows(questions)[i].number < NumberedRows(questions)[j].number
  {
    NumberedInOrder(NumberedRows(questions), questions);
  }

  lemma NumberedInOrder(rows: seq<QuestionRow>, questions: seq<Question>)
    requires |rows| == |questions|
    requires forall i :: 0 <= i < |rows| ==> rows[i].number == i + 1 && rows[i].question == questions[i]
    ensures forall i :: 0 <= i < |rows| ==> 1 <= rows[i].number <= |questions| && questions[rows[i].number - 1] == rows[i].question
    ensures forall i, j :: 0 <= i < j < |rows| ==> rows[i].number < rows[j].number
  {
  }

  /** The page for route id `id`, over the given past interviews and catalogue. */
  function ResultsPage(id: string, interviews: seq<InterviewRecord>, companyList: seq<Company>, roleList: seq<Role>): (v: ResultsView)
    ensures v.NotFound? <==> forall i :: 0 <= i < |interviews| ==> interviews[i].id != id
    ensures v.Report? ==> exists i :: 0 <= i < |interviews| && interviews[i] == v.interview
                                    && (forall j :: 0 <= j < i ==> interviews[j].id != id)
    ensures v.Report? ==> v.interview.id == id
    ensures v.Report? ==> v.rows == NumberedRows(v.interview.questions)
    ensures v.Report? ==> v.overallColor == ScoreColor(v.interview.overallScore as real)
    ensures v.Report? ==>
      (v.company.None? <==> forall i :: 0 <= i < |companyList| ==> companyList[i].id != v.interview.companyId)
    ensures v.Report? && v.company.Some? ==>
      v.company.value in companyList && v.company.value.id == v.interview.companyId
    ensures v.Report? ==>
      (v.role.None? <==> forall i :: 0 <= i < |roleList| ==> roleList[i].id != v.interview.roleId)
    ensures v.Report? && v.role.Some? ==>
      v.role.value in roleList && v.role.value.id == v.interview.roleId
    ensures v.Report? ==>
      |v.cards| == 3
      && v.cards[0].score == v.interview.technicalScore
      && v.cards[1].score == v.interview.communicationScore
      && v.cards[2].score == v.interview.problemSolvingScore
      && forall c :: 0 <= c < 3 ==> v.cards[c].color == ScoreCardColor(v.cards[c].score as real)
  {
    match Find(interviews, (r: InterviewRecord) => r.id == id)
    case None => NotFound
    case Some(interview) =>
      Report(
        interview,
        Find(companyList, (c: Company) => c.id == interview.companyId),
        Find(roleList, (r: Role) => r.id == interview.roleId),
        ScoreColor(interview.overallScore as real),
        [ ScoreCardView("Technical Skills", interview.technicalScore, ScoreCardColor(interview.technicalScore as real)),
          ScoreCardView("Communication", interview.communicationScore, ScoreCardColor(interview.communicationScore as real)),
          ScoreCardView("Problem Solving", interview.problemSolvingScore, ScoreCardColor(interview.problemSolvingScore as real)) ],
        NumberedRows(interview.questions))
  }

  /** The results page of the application: over the canned catalogue. */
  function MockResultsPage(id: string): ResultsView
  {
    ResultsPage(id, mockInterviews, companies, roles)
  }

  /** A route id that names no past interview shows only "Interview not found". */
  lemma UnknownIdIsNotFound(id: string)
    requires id != "1" && id != "2"
    ensures MockResultsPage(id).NotFound?
  {
    MockInterviewIdsDistinct();
    assert InterviewIds() == ["1", "2"];
    forall i | 0 <= i < |mockInterviews| ensures mockInterviews[i].id != id {
      assert mockInterviews[i].id == InterviewIds()[i];
    }
  }

  /**
   * Route id "1", the one every finished interview navigates to, shows the
   * Google software-engineer interview, in the top band, with its company and
   * role found.
   */
  lemma RouteOneShowsFirstMockInterview()
    ensures MockResultsPage("1").Report?
    ensures MockResultsPage("1").interview == mockInterviews[0]
    ensures MockResultsPage("1").company == Some(companies[0])
    ensures MockResultsPage("1").role == Some(roles[0])
    ensures MockResultsPage("1").overallColor == Accent
  {
  }
}
