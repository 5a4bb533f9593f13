/**
 * What the interview page's event handlers guarantee across whole runs:
 * the log only grows, every message is tied to a question index, a missing
 * selection redirects and does nothing else, an unmounted page no longer
 * changes, toggling the mic off cancels nothing, and a candidate who answers
 * every question gets the full question/answer transcript and the results
 * route.
 */
module InterviewProperties {
  import opened Wrappers
  import opened MockData
  import opened Interview
  import Decimal

  /** `prefix` is an initial segment of `s`. */
  predicate IsPrefix(prefix: seq<Message>, s: seq<Message>)
  {
    |prefix| <= |s| && s[..|prefix|] == prefix
  }

  /** Running `a` and then `b` is running `a + b`. */
  lemma {:induction false} RunConcat(p: Page, a: seq<Event>, b: seq<Event>)
    requires Valid(p)
    ensures Run(p, a + b) == Run(Run(p, a), b)
    decreases |a|
  {
    if a == [] {
      assert a + b == b;
    } else {
      assert (a + b)[0] == a[0] && (a + b)[1..] == a[1..] + b;
      RunConcat(Apply(p, a[0]), a[1..], b);
    }
  }

  /** The message log is append-only: whatever happens, earlier messages stay in place. */
  lemma {:induction false} LogIsAppendOnly(p: Page, events: seq<Event>)
    requires Valid(p)
    ensures IsPrefix(p.messages, Run(p, events).messages)
    decreases |events|
  {
    if events != [] {
      var next := Apply(p, events[0]);
      LogIsAppendOnly(next, events[1..]);
      var final := Run(next, events[1..]).messages;
      assert final[..|next.messages|][..|p.messages|] == final[..|p.messages|];
    }
  }

  /**
   * How far the cursor can go: the question count, or 1 for an empty list
   * (there the mic can still be switched on before the first timer fires,
   * which records an answer for question 0).
   */
  function CursorBound(p: Page): (bound: nat)
    ensures bound >= 1
    ensures p.questions != [] ==> bound == |p.questions|
  {
    if p.questions == [] then 1 else |p.questions|
  }

  /**
   * The cursor never passes the bound, is strictly below it while the page
   * is mounted, and every cursor captured by a pending callback is below it.
   */
  predicate CursorInRange(p: Page)
  {
    && p.currentQuestion <= CursorBound(p)
    && (IsMounted(p) ==> p.currentQuestion < CursorBound(p))
    && CapturedBelow(p.pending, CursorBound(p))
  }

  /** Every callback captures a cursor below `bound`. */
  predicate CapturedBelow(pending: seq<Callback>, bound: nat)
  {
    forall k :: 0 <= k < |pending| && (pending[k].FinishRecording? || pending[k].AdvanceQuestion?) ==>
      pending[k].captured < bound
  }

  lemma ApplyKeepsCursorInRange(p: Page, e: Event)
    requires Valid(p) && CursorInRange(p)
    ensures CursorInRange(Apply(p, e))
  {
    var bound := CursorBound(p);
    assert CapturedBelow(p.pending, bound);
    if e.TimerFired? && Enabled(p, e) {
      var rest := RemoveAt(p.pending, e.k);
      assert CapturedBelow(rest, bound);
      var p' := Apply(p, e);
      assert CursorBound(p') == bound;
      match p.pending[e.k] {
        case StartFirstQuestion =>
        case DeliverQuestion(i) =>
        case FinishRecording(q) =>
          assert p'.pending == rest + [AdvanceQuestion(q)];
        case AdvanceQuestion(q) =>
          assert q + 1 <= bound;
          if q + 1 < |p.questions| {
            assert p'.pending == rest + [DeliverQuestion(q + 1)];
          } else {
            assert p'.pending == rest && !IsMounted(p');
          }
      }
    }
  }

  lemma {:induction false} RunKeepsCursorInRange(p: Page, events: seq<Event>)
    requires Valid(p) && CursorInRange(p)
    ensures CursorInRange(Run(p, events))
    decreases |events|
  {
    if events != [] {
      ApplyKeepsCursorInRange(p, events[0]);
      RunKeepsCursorInRange(Apply(p, events[0]), events[1..]);
    }
  }

  /**
   * On any run from mount, `currentQuestion` never exceeds the question
   * count (for a non-empty list) and stays below it while the page is shown.
   */
  lemma CursorWithinQuestions(companyId: Option<string>, roleId: Option<string>, events: seq<Event>)
    ensures var p := Run(Mount(companyId, roleId), events);
      && (p.questions != [] ==> p.currentQuestion <= |p.questions|)
      && (p.questions != [] && IsMounted(p) ==> p.currentQuestion < |p.questions|)
      && (p.questions == [] ==> p.currentQuestion <= 1)
  {
    RunKeepsCursorInRange(Mount(companyId, roleId), events);
  }

  /**
   * An AI message shows question `i` of the list under id `ai-i`; a user
   * message is the simulated answer under `user-q`, for a question index `q`
   * (only `user-0` when the list is empty).
   */
  ghost predicate TiedToQuestion(m: Message, questions: seq<string>)
  {
    || (exists i: nat :: i < |questions| && m == Message(AiMessageId(i), Ai, questions[i]))
    || (exists q: nat :: (q < |questions| || (questions == [] && q == 0))
                         && m == Message(UserMessageId(q), User, SimulatedAnswer))
  }

  ghost predicate LogTiedToQuestions(p: Page)
  {
    forall j :: 0 <= j < |p.messages| ==> TiedToQuestion(p.messages[j], p.questions)
  }

  lemma ApplyKeepsLogTied(p: Page, e: Event)
    requires Valid(p) && CursorInRange(p) && LogTiedToQuestions(p)
    ensures LogTiedToQuestions(Apply(p, e))
  {
  }

  lemma {:induction false} RunKeepsLogTied(p: Page, events: seq<Event>)
    requires Valid(p) && CursorInRange(p) && LogTiedToQuestions(p)
    ensures LogTiedToQuestions(Run(p, events))
    decreases |events|
  {
    if events != [] {
      ApplyKeepsLogTied(p, events[0]);
      ApplyKeepsCursorInRange(p, events[0]);
      RunKeepsLogTied(Apply(p, events[0]), events[1..]);
    }
  }

  /**
   * On any run of the page, every message is either `ai-i` carrying question
   * `i` of the role's list, or `user-q` carrying the simulated answer for a
   * question index `q` of that list (`user-0` if the list is empty).
   */
  lemma ReachableLogTiedToQuestions(companyId: Option<string>, roleId: Option<string>, events: seq<Event>)
    ensures LogTiedToQuestions(Run(Mount(companyId, roleId), events))
    ensures Run(Mount(companyId, roleId), events).questions == QuestionsFor(roleId)
  {
    RunKeepsLogTied(Mount(companyId, roleId), events);
  }

  /** Message ids are injective in the question index, and AI and user ids never collide. */
  lemma MessageIdsIdentifyIndex(i: nat, j: nat)
    ensures AiMessageId(i) == AiMessageId(j) ==> i == j
    ensures UserMessageId(i) == UserMessageId(j) ==> i == j
    ensures AiMessageId(i) != UserMessageId(j)
  {
    var a, b := Decimal.NatToString(i), Decimal.NatToString(j);
    if AiMessageId(i) == AiMessageId(j) {
      assert a == AiMessageId(i)[3..] == AiMessageId(j)[3..] == b;
      Decimal.NatToStringInjective(i, j);
    }
    if UserMessageId(i) == UserMessageId(j) {
      assert a == UserMessageId(i)[5..] == UserMessageId(j)[5..] == b;
      Decimal.NatToStringInjective(i, j);
    }
    assert AiMessageId(i)[0] == 'a' && UserMessageId(j)[0] == 'u';
  }

  /** Ids render the index in decimal, as the template literals do. */
  lemma MessageIdExamples()
    ensures AiMessageId(0) == "ai-0"
    ensures AiMessageId(4) == "ai-4"
    ensures UserMessageId(12) == "user-12"
  {
  }

  /** Without a company or a role the page redirects to the dashboard, and no event ever changes it afterwards. */
  lemma {:induction false} MissingSelectionRedirects(companyId: Option<string>, roleId: Option<string>, events: seq<Event>)
    requires !Present(companyId) || !Present(roleId)
    ensures Run(Mount(companyId, roleId), events) == Mount(companyId, roleId)
    ensures Mount(companyId, roleId).navigations == [DashboardRoute]
    ensures Mount(companyId, roleId).messages == [] && Mount(companyId, roleId).pending == []
    decreases |events|
  {
    var p := Mount(companyId, roleId);
    if events != [] {
      assert !Enabled(p, events[0]);
      assert Apply(p, events[0]) == p;
      MissingSelectionRedirects(companyId, roleId, events[1..]);
    }
  }

  /**
   * `later` keeps the log, cursor and flags of `earlier`, and its navigations
   * extend those of `earlier` by results-route entries only.
   */
  predicate FrozenSince(earlier: Page, later: Page)
  {
    && later.messages == earlier.messages && later.currentQuestion == earlier.currentQuestion
    && later.isListening == earlier.isListening && later.isAiSpeaking == earlier.isAiSpeaking
    && |earlier.navigations| <= |later.navigations|
    && later.navigations[..|earlier.navigations|] == earlier.navigations
    && forall n :: |earlier.navigations| <= n < |later.navigations| ==> later.navigations[n] == ResultsRoute
  }

  lemma ApplyOnUnmounted(p: Page, e: Event)
    requires Valid(p) && !IsMounted(p)
    ensures FrozenSince(p, Apply(p, e)) && !IsMounted(Apply(p, e))
  {
  }

  /**
   * Once the page has navigated away, its React state is gone: timers still
   * fire (nothing was cancelled) but the log, cursor and flags no longer
   * change; the only further effect is another navigation to the results route.
   */
  lemma {:induction false} UnmountedPageIsFrozen(p: Page, events: seq<Event>)
    requires Valid(p) && !IsMounted(p)
    ensures FrozenSince(p, Run(p, events))
    decreases |events|
  {
    if events != [] {
      var next := Apply(p, events[0]);
      ApplyOnUnmounted(p, events[0]);
      UnmountedPageIsFrozen(next, events[1..]);
      var final := Run(next, events[1..]);
      assert final.navigations[..|next.navigations|][..|p.navigations|] == final.navigations[..|p.navigations|];
    }
  }

  /** Every navigation of a page that mounted with both selections targets `/results/1`. */
  lemma {:induction false} OnlyResultsNavigations(p: Page, events: seq<Event>)
    requires Valid(p)
    requires forall n :: 0 <= n < |p.navigations| ==> p.navigations[n] == ResultsRoute
    ensures forall n :: 0 <= n < |Run(p, events).navigations| ==> Run(p, events).navigations[n] == ResultsRoute
    decreases |events|
  {
    if events != [] {
      var next := Apply(p, events[0]);
      assert next.navigations == p.navigations || next.navigations == p.navigations + [ResultsRoute];
      OnlyResultsNavigations(next, events[1..]);
    }
  }

  lemma EndAlwaysTargetsResultsOne(companyId: Option<string>, roleId: Option<string>, events: seq<Event>)
    requires Present(companyId) && Present(roleId)
    ensures forall n :: 0 <= n < |Run(Mount(companyId, roleId), events).navigations| ==>
      Run(Mount(companyId, roleId), events).navigations[n] == ResultsRoute
  {
    OnlyResultsNavigations(Mount(companyId, roleId), events);
  }

  /** The question timer shows question `i` under id `ai-i` and ends the speaking phase. */
  lemma DeliveryAppendsQuestion(p: Page, k: nat, i: nat)
    requires Valid(p) && k < |p.pending| && p.pending[k] == DeliverQuestion(i) && IsMounted(p)
    ensures i < |p.questions|
    ensures AfterFire(p, k).messages == p.messages + [Message(AiMessageId(i), Ai, p.questions[i])]
    ensures !AfterFire(p, k).isAiSpeaking
    ensures AfterFire(p, k).pending == RemoveAt(p.pending, k)
  {
  }

  /**
   * The recording timer stops listening and appends the answer `user-q` for
   * the cursor captured at the toggle, whatever the cursor is now, then
   * schedules the advance.
   */
  lemma RecordingAppendsAnswer(p: Page, k: nat, q: nat)
    requires Valid(p) && k < |p.pending| && p.pending[k] == FinishRecording(q) && IsMounted(p)
    ensures AfterFire(p, k).messages == p.messages + [Message(UserMessageId(q), User, SimulatedAnswer)]
    ensures !AfterFire(p, k).isListening
    ensures AfterFire(p, k).pending == RemoveAt(p.pending, k) + [AdvanceQuestion(q)]
    ensures AfterFire(p, k).currentQuestion == p.currentQuestion
  {
  }

  /** The advance timer sets the cursor to the captured value plus one and asks that question. */
  lemma AdvanceAsksNextQuestion(p: Page, k: nat, q: nat)
    requires Valid(p) && k < |p.pending| && p.pending[k] == AdvanceQuestion(q) && IsMounted(p)
    ensures AfterFire(p, k).currentQuestion == q + 1
    ensures AfterFire(p, k).messages == p.messages
    ensures q + 1 < |p.questions| ==>
              AfterFire(p, k).isAiSpeaking && AfterFire(p, k).pending == RemoveAt(p.pending, k) + [DeliverQuestion(q + 1)]
    ensures q + 1 >= |p.questions| ==> AfterFire(p, k).navigations == [ResultsRoute]
  {
  }

  /** A role without a question list ends the interview as soon as the first question is asked. */
  lemma UnlistedRoleEndsAtOnce(companyId: Option<string>, roleId: Option<string>)
    requires Present(companyId) && Present(roleId) && roleId.value !in sampleQuestions
    ensures var p := Apply(Mount(companyId, roleId), TimerFired(0));
      p.navigations == [ResultsRoute] && p.messages == [] && p.pending == [] && !p.isAiSpeaking
  {
  }

  /** The listed roles `designer` and `devops` are such roles. */
  lemma DesignerAndDevopsEndAtOnce(companyId: Option<string>)
    requires Present(companyId)
    ensures Apply(Mount(companyId, Some("designer")), TimerFired(0)).navigations == [ResultsRoute]
    ensures Apply(Mount(companyId, Some("devops")), TimerFired(0)).navigations == [ResultsRoute]
  {
  }

  /**
   * Toggling the mic on, off and on again leaves two recording callbacks for
   * the same captured cursor: switching off cancels nothing.
   */
  lemma ToggleOffCancelsNothing(p: Page)
    requires Valid(p) && IsMounted(p) && !p.isAiSpeaking && !p.isListening
    ensures var p' := Run(p, [MicClicked, MicClicked, MicClicked]);
      p'.isListening
      && p'.pending == p.pending + [FinishRecording(p.currentQuestion), FinishRecording(p.currentQuestion)]
  {
  }

  /** ... and when both callbacks run, the log holds two answers with the same id `user-q`. */
  lemma DoubleToggleDuplicatesAnswer(p: Page)
    requires Valid(p) && IsMounted(p) && !p.isAiSpeaking && !p.isListening && p.pending == []
    ensures var p' := Run(p, [MicClicked, MicClicked, MicClicked, TimerFired(0), TimerFired(0)]);
      var answer := Message(UserMessageId(p.currentQuestion), User, SimulatedAnswer);
      p'.messages == p.messages + [answer, answer]
  {
  }
}
