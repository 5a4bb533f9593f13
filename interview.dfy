/**
 * The turn-taking logic of the `Interview` component (src/pages/Interview.tsx).
 *
 * The component keeps a message log, a question cursor and two phase flags in
 * React state and advances through `setTimeout` callbacks. Here a `Page` value
 * is one snapshot of that state together with the callbacks still pending and
 * the routes navigated to; the functions below give the effect of each event
 * handler on a snapshot, and the class `InterviewPage` performs the same steps
 * by updating its fields in place. Timer delays are dropped: any pending
 * callback may fire next.
 */
module Interview {
  import opened Wrappers
  import opened MockData
  import Decimal

  const DashboardRoute: string := "/dashboard"
  const ResultsRoute: string := "/results/1"

  /** The fixed text of every simulated answer. */
  const SimulatedAnswer: string :=
    "This is a simulated response. In a real implementation, this would be the transcribed audio from the user's microphone."

  datatype Sender = Ai | User

  /** A chat message; the timestamp of the source is left out. */
  datatype Message = Message(id: string, sender: Sender, text: string)

  function AiMessageId(index: nat): string
  {
    "ai-" + Decimal.NatToString(index)
  }

  function UserMessageId(index: nat): string
  {
    "user-" + Decimal.NatToString(index)
  }

  /** A `setTimeout` callback that has been scheduled and has not run yet. */
  datatype Callback =
    | StartFirstQuestion          // the mount effect's timer: askQuestion(0)
    | DeliverQuestion(index: nat) // askQuestion's timer: show question `index`
    | FinishRecording(captured: nat) // the mic timer; `captured` is currentQuestion at the toggle
    | AdvanceQuestion(captured: nat) // simulateUserResponse's timer, with the same captured cursor

  datatype Page = Page(
    questions: seq<string>,   // the role's prompts, fixed for the page's lifetime
    messages: seq<Message>,
    isListening: bool,
    currentQuestion: nat,
    isAiSpeaking: bool,
    pending: seq<Callback>,
    navigations: seq<string>) // every navigate() call so far, oldest first

  /** The page is on screen until its first navigation unmounts it. */
  predicate IsMounted(p: Page)
  {
    p.navigations == []
  }

  /** Every scheduled question delivery names a question of the list. */
  predicate Valid(p: Page)
  {
    forall k :: 0 <= k < |p.pending| && p.pending[k].DeliverQuestion? ==> p.pending[k].index < |p.questions|
  }

  /** A route-state value counts as given when it is present and not the empty string (JavaScript truthiness). */
  predicate Present(v: Option<string>)
  {
    v.Some? && v.value != ""
  }

  /** The question list of a role id, empty when the role has none. */
  function QuestionsFor(roleId: Option<string>): (qs: seq<string>)
    ensures roleId.Some? && roleId.value in sampleQuestions ==> qs == sampleQuestions[roleId.value]
    ensures qs != [] <==> roleId in {Some("swe"), Some("pm"), Some("ds")}
    ensures qs != [] ==> |qs| == 5
  {
    QuestionListsByRole();
    if roleId.Some? && roleId.value in sampleQuestions then sampleQuestions[roleId.value] else []
  }

  /**
   * First render plus the mount effect: without a company or a role the page
   * redirects to the dashboard and schedules nothing; otherwise it schedules
   * the first question.
   */
  function Mount(companyId: Option<string>, roleId: Option<string>): (p: Page)
    ensures Valid(p)
    ensures p.questions == QuestionsFor(roleId)
    ensures p.messages == [] && p.currentQuestion == 0 && !p.isListening && !p.isAiSpeaking
    ensures IsMounted(p) <==> Present(companyId) && Present(roleId)
    ensures !IsMounted(p) ==> p.navigations == [DashboardRoute] && p.pending == []
    ensures IsMounted(p) ==> p.pending == [StartFirstQuestion]
  {
    var initial := Page(QuestionsFor(roleId), [], false, 0, false, [], []);
    if !Present(companyId) || !Present(roleId) then initial.(navigations := [DashboardRoute])
    else initial.(pending := [StartFirstQuestion])
  }

  /** `handleEndInterview`: navigate to the fixed results route; nothing is cancelled. */
  function AfterEnd(p: Page): (p': Page)
    ensures !IsMounted(p') && p'.navigations == p.navigations + [ResultsRoute]
    // no pending timer is cancelled and no other state changes
    ensures p'.pending == p.pending && p'.messages == p.messages && p'.questions == p.questions
    ensures p'.isListening == p.isListening && p'.isAiSpeaking == p.isAiSpeaking
    ensures p'.currentQuestion == p.currentQuestion
  {
    p.(navigations := p.navigations + [ResultsRoute])
  }

  /**
   * `askQuestion(i)`: past the last question it ends the interview; otherwise
   * it marks the AI as speaking and schedules the delivery of question `i`.
   * State writes are dropped once the page is unmounted; timers are not.
   */
  function AfterAsk(p: Page, i: nat): (p': Page)
    requires Valid(p)
    ensures Valid(p')
    ensures p'.questions == p.questions && p'.messages == p.messages
    ensures p'.currentQuestion == p.currentQuestion && p'.isListening == p.isListening
    ensures i >= |p.questions| ==> p' == AfterEnd(p)
    ensures i < |p.questions| ==> p'.navigations == p.navigations && p'.pending == p.pending + [DeliverQuestion(i)]
    ensures i < |p.questions| ==> p'.isAiSpeaking == (IsMounted(p) || p.isAiSpeaking)
  {
    if i >= |p.questions| then AfterEnd(p)
    else
      var speaking := if IsMounted(p) then p.(isAiSpeaking := true) else p;
      speaking.(pending := p.pending + [DeliverQuestion(i)])
  }

  /**
   * `handleMicToggle`: flips `isListening`; only switching it on schedules the
   * recording callback, which captures the current cursor. Switching it off
   * cancels nothing. The button exists only while mounted and is disabled
   * while the AI speaks.
   */
  function AfterMicToggle(p: Page): (p': Page)
    requires IsMounted(p) && !p.isAiSpeaking
    requires Valid(p)
    ensures Valid(p')
    ensures p'.isListening == !p.isListening
    ensures p'.messages == p.messages && p'.currentQuestion == p.currentQuestion && p'.navigations == p.navigations
    ensures p'.pending == if p.isListening then p.pending else p.pending + [FinishRecording(p.currentQuestion)]
    ensures p'.isAiSpeaking == p.isAiSpeaking && p'.questions == p.questions
  {
    p.(isListening := !p.isListening,
       pending := if p.isListening then p.pending else p.pending + [FinishRecording(p.currentQuestion)])
  }

  /**
   * `simulateUserResponse` run with captured cursor `q`: appends the user's
   * message `user-q` and schedules the advance to question `q + 1`.
   */
  function AfterUserResponse(p: Page, q: nat): (p': Page)
    requires Valid(p)
    ensures Valid(p')
    ensures p'.pending == p.pending + [AdvanceQuestion(q)]
    ensures p'.messages == if IsMounted(p) then p.messages + [Message(UserMessageId(q), User, SimulatedAnswer)] else p.messages
    ensures p'.navigations == p.navigations && p'.currentQuestion == p.currentQuestion
    ensures p'.questions == p.questions && p'.isAiSpeaking == p.isAiSpeaking && p'.isListening == p.isListening
  {
    var answered := if IsMounted(p) then p.(messages := p.messages + [Message(UserMessageId(q), User, SimulatedAnswer)]) else p;
    answered.(pending := p.pending + [AdvanceQuestion(q)])
  }

  /** The pending list without its `k`-th callback. */
  function RemoveAt(s: seq<Callback>, k: nat): (r: seq<Callback>)
    requires k < |s|
    ensures |r| == |s| - 1
    ensures forall j :: 0 <= j < k ==> r[j] == s[j]
    ensures forall j :: k <= j < |r| ==> r[j] == s[j + 1]
  {
    s[..k] + s[k + 1..]
  }

  /** The `k`-th pending callback fires: it leaves the pending list and runs. */
  function AfterFire(p: Page, k: nat): (p': Page)
    requires Valid(p) && k < |p.pending|
    ensures Valid(p')
    ensures p'.questions == p.questions
    ensures |p.messages| <= |p'.messages| <= |p.messages| + 1 && p'.messages[..|p.messages|] == p.messages
    // the fired callback leaves the list; the others keep their order, and new ones go after them
    ensures |p'.pending| >= |p.pending| - 1 && p'.pending[..|p.pending| - 1] == RemoveAt(p.pending, k)
  {
    var rest := p.(pending := RemoveAt(p.pending, k));
    match p.pending[k]
    case StartFirstQuestion =>
      AfterAsk(rest, 0)
    case DeliverQuestion(i) =>
      if IsMounted(rest) then
        rest.(messages := rest.messages + [Message(AiMessageId(i), Ai, rest.questions[i])], isAiSpeaking := false)
      else rest
    case FinishRecording(q) =>
      AfterUserResponse(if IsMounted(rest) then rest.(isListening := false) else rest, q)
    case AdvanceQuestion(q) =>
      AfterAsk(if IsMounted(rest) then rest.(currentQuestion := q + 1) else rest, q + 1)
  }

  /** What can happen to the page: a click on the mic, a timer firing, or confirming the end dialog. */
  datatype Event = MicClicked | TimerFired(k: nat) | EndConfirmed

  /** Whether the event can happen at all in `p`: the buttons exist only while mounted, the mic only when enabled. */
  predicate Enabled(p: Page, e: Event)
  {
    match e
    case MicClicked => IsMounted(p) && !p.isAiSpeaking
    case TimerFired(k) => k < |p.pending|
    case EndConfirmed => IsMounted(p)
  }

  /** One event; an event that cannot happen leaves the page as it is. */
  function Apply(p: Page, e: Event): (p': Page)
    requires Valid(p)
    ensures Valid(p')
    ensures p'.questions == p.questions
    ensures |p.messages| <= |p'.messages| <= |p.messages| + 1 && p'.messages[..|p.messages|] == p.messages
  {
    if !Enabled(p, e) then p
    else
      match e
      case MicClicked => AfterMicToggle(p)
      case TimerFired(k) => AfterFire(p, k)
      case EndConfirmed => AfterEnd(p)
  }

  /** A sequence of events, in order. */
  function Run(p: Page, events: seq<Event>): (p': Page)
    requires Valid(p)
    ensures Valid(p')
    ensures p'.questions == p.questions
    decreases |events|
  {
    if events == [] then p else Run(Apply(p, events[0]), events[1..])
  }

  /**
   * The `Interview` component's state, updated in place by its handlers.
   * `pending` stands for the browser's timer queue.
   */
  class InterviewPage {
    const questions: seq<string>
    var messages: seq<Message>
    var isListening: bool
    var currentQuestion: nat
    var isAiSpeaking: bool
    var pending: seq<Callback>
    var navigations: seq<string>

    /** The current snapshot of the page. */
    function State(): Page
      reads this
    {
      Page(questions, messages, isListening, currentQuestion, isAiSpeaking, pending, navigations)
    }

    /** First render and the mount effect. */
    constructor (companyId: Option<string>, roleId: Option<string>)
      ensures State() == Mount(companyId, roleId)
    {
      questions := QuestionsFor(roleId);
      messages := [];
      isListening := false;
      currentQuestion := 0;
      isAiSpeaking := false;
      if !Present(companyId) || !Present(roleId) {
        navigations := [DashboardRoute];
        pending := [];
      } else {
        navigations := [];
        pending := [StartFirstQuestion];
      }
    }

    method HandleEndInterview()
      modifies this
      ensures State() == AfterEnd(old(State()))
    {
      navigations := navigations + [ResultsRoute];
    }

    method AskQuestion(i: nat)
      requires Valid(State())
      modifies this
      ensures State() == AfterAsk(old(State()), i)
    {
      if i >= |questions| {
        HandleEndInterview();
        return;
      }
      if navigations == [] {
        isAiSpeaking := true;
      }
      pending := pending + [DeliverQuestion(i)];
    }

    method HandleMicToggle()
      requires IsMounted(State()) && !isAiSpeaking && Valid(State())
      modifies this
      ensures State() == AfterMicToggle(old(State()))
    {
      var wasListening := isListening;
      isListening := !wasListening;
      if !wasListening {
        pending := pending + [FinishRecording(currentQuestion)];
      }
    }

    method SimulateUserResponse(q: nat)
      requires Valid(State())
      modifies this
      ensures State() == AfterUserResponse(old(State()), q)
    {
      if navigations == [] {
        messages := messages + [Message(UserMessageId(q), User, SimulatedAnswer)];
      }
      pending := pending + [AdvanceQuestion(q)];
    }

    /** The `k`-th pending timer fires. */
    method Fire(k: nat)
      requires Valid(State()) && k < |pending|
      modifies this
      ensures State() == AfterFire(old(State()), k)
    {
      var callback := pending[k];
      pending := RemoveAt(pending, k);
      match callback
      case StartFirstQuestion =>
        AskQuestion(0);
      case DeliverQuestion(i) =>
        if navigations == [] {
          messages := messages + [Message(AiMessageId(i), Ai, questions[i])];
          isAiSpeaking := false;
        }
      case FinishRecording(q) =>
        if navigations == [] {
          isListening := false;
        }
        SimulateUserResponse(q);
      case AdvanceQuestion(q) =>
        if navigations == [] {
          currentQuestion := q + 1;
        }
        AskQuestion(q + 1);
    }
  }
}
