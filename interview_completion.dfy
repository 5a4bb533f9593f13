/**
 * A candidate who waits for each question and answers it once goes through
 * the whole list: the log ends up holding, for every question in order, the
 * AI message and the simulated answer, the cursor equals the question count,
 * and the page navigates to the results route exactly once.
 */
module InterviewCompletion {
  import opened Wrappers
  import opened Interview
  import opened InterviewProperties

  /** The log after the first `n` questions have been shown and answered. */
  function Transcript(questions: seq<string>, n: nat): (log: seq<Message>)
    requires n <= |questions|
    ensures |log| == 2 * n
    decreases n
  {
    if n == 0 then []
    else Transcript(questions, n - 1)
         + [Message(AiMessageId(n - 1), Ai, questions[n - 1]), Message(UserMessageId(n - 1), User, SimulatedAnswer)]
  }

  /** Question `i` sits at position `2i` of the transcript and its answer right after it. */
  lemma {:induction false} TranscriptAt(questions: seq<string>, n: nat, i: nat)
    requires n <= |questions| && i < n
    ensures Transcript(questions, n)[2 * i] == Message(AiMessageId(i), Ai, questions[i])
    ensures Transcript(questions, n)[2 * i + 1] == Message(UserMessageId(i), User, SimulatedAnswer)
    decreases n
  {
    if i < n - 1 {
      TranscriptAt(questions, n - 1, i);
    }
  }

  /** The page just after question `q` was asked, with questions `0 .. q-1` answered. */
  function Asked(questions: seq<string>, q: nat): Page
    requires q < |questions|
  {
    Page(questions, Transcript(questions, q), false, q, true, [DeliverQuestion(q)], [])
  }

  /** The page after the last answer: every question answered, navigated to the results. */
  function Finished(questions: seq<string>): Page
  {
    Page(questions, Transcript(questions, |questions|), false, |questions|, false, [], [ResultsRoute])
  }

  /** One turn: the question arrives, the mic is switched on, the recording ends, the page advances. */
  const Turn: seq<Event> := [TimerFired(0), MicClicked, TimerFired(0), TimerFired(0)]

  function Turns(n: nat): (events: seq<Event>)
    ensures |events| == 4 * n
  {
    if n == 0 then [] else Turns(n - 1) + Turn
  }

  /** The whole interview: the mount timer, then one turn per question. */
  function AnswerEverything(count: nat): seq<Event>
  {
    [TimerFired(0)] + Turns(count)
  }

  /** The page after question `q` has been shown, before the mic is switched on. */
  function Shown(questions: seq<string>, q: nat): Page
    requires q < |questions|
  {
    Page(questions, Transcript(questions, q) + [Message(AiMessageId(q), Ai, questions[q])], false, q, false, [], [])
  }

  /** The page after the answer to question `q` has been recorded, before the advance. */
  function Answered(questions: seq<string>, q: nat): Page
    requires q < |questions|
  {
    Page(questions, Transcript(questions, q + 1), false, q, false, [AdvanceQuestion(q)], [])
  }

  /** Running a non-empty sequence applies its first event, then the rest. */
  lemma RunFirst(p: Page, events: seq<Event>)
    requires Valid(p) && events != []
    ensures Run(p, events) == Run(Apply(p, events[0]), events[1..])
  {
  }

  /** The delivery timer shows the asked question. */
  lemma DeliverStep(questions: seq<string>, q: nat)
    requires q < |questions|
    ensures Apply(Asked(questions, q), TimerFired(0)) == Shown(questions, q)
  {
  }

  /** Switching the mic on schedules the recording for question `q`. */
  lemma MicStep(questions: seq<string>, q: nat)
    requires q < |questions|
    ensures Apply(Shown(questions, q), MicClicked) == Shown(questions, q).(isListening := true, pending := [FinishRecording(q)])
  {
  }

  /** The recording timer appends the answer to question `q` and schedules the advance. */
  lemma RecordStep(questions: seq<string>, q: nat)
    requires q < |questions|
    ensures Apply(Shown(questions, q).(isListening := true, pending := [FinishRecording(q)]), TimerFired(0)) == Answered(questions, q)
  {
    assert Transcript(questions, q + 1)
        == Transcript(questions, q) + [Message(AiMessageId(q), Ai, questions[q])] + [Message(UserMessageId(q), User, SimulatedAnswer)];
  }

  /** The advance timer asks the next question, or ends the interview after the last. */
  lemma AdvanceStep(questions: seq<string>, q: nat)
    requires q < |questions|
    ensures Apply(Answered(questions, q), TimerFired(0)) == if q + 1 < |questions| then Asked(questions, q + 1) else Finished(questions)
  {
  }

  lemma {:induction false} OneTurn(questions: seq<string>, q: nat)
    requires q < |questions|
    ensures Run(Asked(questions, q), Turn) == if q + 1 < |questions| then Asked(questions, q + 1) else Finished(questions)
  {
    var listening := Shown(questions, q).(isListening := true, pending := [FinishRecording(q)]);
    DeliverStep(questions, q);
    MicStep(questions, q);
    RecordStep(questions, q);
    AdvanceStep(questions, q);
    RunFirst(Asked(questions, q), Turn);
    RunFirst(Shown(questions, q), Turn[1..]);
    RunFirst(listening, Turn[2..]);
    RunFirst(Answered(questions, q), Turn[3..]);
    assert Turn[1..][1..] == Turn[2..] && Turn[2..][1..] == Turn[3..] && Turn[3..][1..] == [];
  }

  lemma {:induction false} TurnsFromFirstQuestion(questions: seq<string>, n: nat)
    requires 1 <= n <= |questions|
    ensures Run(Asked(questions, 0), Turns(n)) == if n < |questions| then Asked(questions, n) else Finished(questions)
    decreases n
  {
    var first := Asked(questions, 0);
    var mid := if n == 1 then first else Run(first, Turns(n - 1));
    assert Run(first, Turns(n)) == Run(mid, Turn) by {
      assert Turns(n) == Turns(n - 1) + Turn;
      RunConcat(first, Turns(n - 1), Turn);
    }
    assert mid == Asked(questions, n - 1) by {
      if n > 1 {
        TurnsFromFirstQuestion(questions, n - 1);
      }
    }
    OneTurn(questions, n - 1);
  }

  /**
   * With a company and a role chosen, answering every question yields the
   * full transcript (one AI message and one answer per question, in question
   * order), leaves the cursor at the question count, and ends with a single
   * navigation to `/results/1`. For a role without questions that happens on
   * the first timer, with an empty log.
   */
  lemma CompletedInterview(companyId: Option<string>, roleId: Option<string>)
    requires Present(companyId) && Present(roleId)
    ensures var questions := QuestionsFor(roleId);
      var p := Run(Mount(companyId, roleId), AnswerEverything(|questions|));
      && p.messages == Transcript(questions, |questions|)
      && |p.messages| == 2 * |questions|
      && p.currentQuestion == |questions|
      && p.navigations == [ResultsRoute]
      && p.pending == [] && !p.isListening && !p.isAiSpeaking
  {
    var questions := QuestionsFor(roleId);
    var start := Mount(companyId, roleId);
    var asked := Apply(start, TimerFired(0));
    RunConcat(start, [TimerFired(0)], Turns(|questions|));
    assert [TimerFired(0)][1..] == [];
    assert Run(start, [TimerFired(0)]) == asked;
    if |questions| == 0 {
      assert asked == Finished(questions);
      assert Turns(0) == [];
    } else {
      assert asked == Asked(questions, 0);
      TurnsFromFirstQuestion(questions, |questions|);
    }
  }
}
