# VoicePrep interview page — a Dafny model

This project models the logic of a mock "AI interview practice" web app. The
app has three pieces of logic:

- the **interview page** (`Interview` component): a turn-taking loop. The AI
  "speaks" a scripted question, the candidate switches the microphone on, a
  simulated answer is recorded, and the page moves to the next question or
  ends at the results page. Every step except switching the mic on is driven by a
  `setTimeout` callback;
- the **results page**: finds the past interview named by the route id,
  colours each score by band (85 and above, 70 to 85, below 70) and numbers
  the questions from 1;
- the **catalogue**: constant lists of companies, roles, two canned past
  interviews and the five scripted questions for each of three roles.

## How the interview page is modelled

A `Page` value (module `Interview`) holds one snapshot of the component's
React state:

- the message log;
- `currentQuestion`;
- `isListening` and `isAiSpeaking`;
- the role's question list;
- the callbacks scheduled with `setTimeout` that have not run yet (`pending`);
- every route passed to `navigate` (`navigations`).

Each handler is a function from snapshot to snapshot: `Mount`, `AfterAsk`,
`AfterMicToggle`, `AfterUserResponse`, `AfterFire` and `AfterEnd`. `Apply`
and `Run` play user and timer events through them. The class `InterviewPage`
does the same steps by updating its fields in place. Each of its methods
ensures that its new `State()` is the matching function applied to
`old(State())`. The lemmas in `InterviewProperties` and `InterviewCompletion`
are stated about the functions.

Modelling choices:

- Timer delays are dropped: any pending callback may fire next.
- The recording and advance callbacks use the `currentQuestion` captured when
  the mic was switched on. They do not read the current value.
- The page is mounted until its first navigation. After that, callbacks still
  run and may call `navigate` again, but React state writes are dropped.
- The mount guard only tests truthiness. An absent or empty company or role
  redirects to `/dashboard`. A company id that is not in the catalogue still
  passes the guard.
- Ending the interview always navigates to `/results/1`, whichever interview
  was just run.

Quirks of the code, each proved as a lemma:

- A role without a question list (`designer`, `devops`, or any unknown role)
  still starts, and ends the interview on the first timer
  (`UnlistedRoleEndsAtOnce`, `DesignerAndDevopsEndAtOnce`).
- No timer is ever cancelled. Switching the mic off leaves the recording
  callback pending, and ending the interview leaves every callback pending
  (`ToggleOffCancelsNothing`, `UnmountedPageIsFrozen`).
- Switching the mic on, off and on again records the same answer twice under
  one id (`DoubleToggleDuplicatesAnswer`).
- The log holds two chat messages per question: an AI message with the
  question, then a user message with the answer (`CompletedInterview`).

## Model

| member | source | states |
|---|---|---|
| `Decimal.NatToString` | src/pages/Interview.tsx:62 | the decimal numeral of an index, as a template literal renders it: digits only, read left to right they denote the index; one digit exactly below 10, no leading zero |
| `Decimal.NatToStringInjective` | src/pages/Interview.tsx:62 | distinct indices render as distinct numerals |
| `MockData.CompanyIdsDistinct` | src/lib/mockData.ts:32-39 | company ids are pairwise distinct |
| `MockData.RoleIdsDistinct` | src/lib/mockData.ts:41-47 | role ids are pairwise distinct |
| `MockData.QuestionListsByRole` | src/lib/mockData.ts:111-133 | exactly `swe`, `pm`, `ds` have question lists, each of 5 prompts, each a listed role; `designer` and `devops` are listed roles with no list |
| `MockData.MockInterviewsReferenceCatalogue` | src/lib/mockData.ts:49-109 | every past interview's company id and role id exist in the catalogue |
| `MockData.MockInterviewIdsDistinct` | src/lib/mockData.ts:49-109 | past interview ids are distinct |
| `MockData.MockQuestionIdsDistinct` | src/lib/mockData.ts:59-107 | question ids are distinct across all past interviews |
| `MockData.MockScoresArePercentages` | src/lib/mockData.ts:49-109 | every canned score is at most 100 |
| `Results.ScoreColor` | src/pages/Results.tsx:36-40 | `text-accent` exactly when score >= 85, `text-primary` exactly when 70 <= score < 85, `text-destructive` exactly when score < 70 |
| `Results.ScoreCardColor` | src/pages/Results.tsx:173-177 | the score-card copy always returns one of the three band colours |
| `Results.ScoreCardColorAgrees` | src/pages/Results.tsx:173-177 | the score-card copy equals the page copy for every score |
| `Results.ScoreColorMonotone` | src/pages/Results.tsx:36-40 | raising a score never moves it to a lower band |
| `Results.FindIndex` | src/pages/Results.tsx:17 | None exactly when nothing matches; otherwise the index of a match with no earlier match |
| `Results.Find` | src/pages/Results.tsx:17-19 | None exactly when nothing matches; otherwise the first matching element |
| `Results.NumberedRows` | src/pages/Results.tsx:115-125 | one row per question in list order, numbered index + 1, coloured by its score's band |
| `Results.RowNumbersLocateQuestions` | src/pages/Results.tsx:115-120 | row number n shows question n - 1 of the interview, and numbers strictly increase down the list |
| `Results.ResultsPage` | src/pages/Results.tsx:13-125 | "not found" exactly when no interview has the route id; otherwise a report of the first interview with that id, its rows numbered as `NumberedRows`, its overall score coloured by band, three cards (technical, communication, problem solving) coloured by the card copy, and a company and role that are found exactly when one in the catalogue has the interview's id, and then have that id |
| `Results.UnknownIdIsNotFound` | src/pages/Results.tsx:21-34 | any route id other than "1" and "2" gives only the not-found view |
| `Results.RouteOneShowsFirstMockInterview` | src/pages/Results.tsx:17-19 | `/results/1` shows the Google software-engineer interview, in the top band, with company and role found |
| `Interview.QuestionsFor` | src/pages/Interview.tsx:38-39 | the role's list when it has one; non-empty exactly for `swe`, `pm`, `ds`, and then of length 5 |
| `Interview.Mount` | src/pages/Interview.tsx:41-51 | empty log, cursor 0, flags off; mounted iff company and role are both given; if not, one navigation to `/dashboard` and nothing scheduled, else only the first-question timer scheduled |
| `Interview.AfterEnd` | src/pages/Interview.tsx:100-102 | appends `/results/1` to the navigations and unmounts; no pending callback is cancelled; nothing else changes |
| `Interview.AfterAsk` | src/pages/Interview.tsx:53-70 | at or past the question count, it is exactly the end action; otherwise schedules delivery of question i and sets `isAiSpeaking` while mounted; log and cursor unchanged |
| `Interview.AfterMicToggle` | src/pages/Interview.tsx:72-82 | negates `isListening`; schedules a recording callback with the current cursor only when switching on; switching off removes nothing; log, cursor, navigations, `isAiSpeaking` and the question list are unchanged |
| `Interview.AfterUserResponse` | src/pages/Interview.tsx:84-98 | appends the simulated answer `user-q` while mounted, then schedules the advance for the same captured q; cursor, flags, navigations and the question list are unchanged |
| `Interview.AfterFire` | src/pages/Interview.tsx:41-98 | the fired callback leaves the pending list, and the others stay in order ahead of any it schedules; the log gains at most one message at the end; earlier messages and the question list are unchanged |
| `Interview.Apply` | src/pages/Interview.tsx:199-230 | an event keeps the page valid; the log only gains at most one message at the end |
| `Interview.Run` | src/pages/Interview.tsx:41-102 | any sequence of events keeps every scheduled delivery within the question list, and keeps the list fixed |
| `Interview.InterviewPage.constructor` | src/pages/Interview.tsx:25-51 | the new page's state is `Mount` of the route state |
| `Interview.InterviewPage.HandleEndInterview` | src/pages/Interview.tsx:100-102 | the new state is `AfterEnd` of the old |
| `Interview.InterviewPage.AskQuestion` | src/pages/Interview.tsx:53-70 | the new state is `AfterAsk` of the old |
| `Interview.InterviewPage.HandleMicToggle` | src/pages/Interview.tsx:72-82 | callable only while mounted and not speaking; the new state is `AfterMicToggle` of the old |
| `Interview.InterviewPage.SimulateUserResponse` | src/pages/Interview.tsx:84-98 | the new state is `AfterUserResponse` of the old |
| `Interview.InterviewPage.Fire` | src/pages/Interview.tsx:48-98 | removes and runs one pending callback; the new state is `AfterFire` of the old |
| `InterviewProperties.LogIsAppendOnly` | src/pages/Interview.tsx:60-97 | on any run the old log is a prefix of the new one |
| `InterviewProperties.ReachableLogTiedToQuestions` | src/pages/Interview.tsx:59-91 | on any run from mount, each message is either `ai-i` with question i of the role's list (i in range) or `user-q` with the simulated answer, q in range (q = 0 for an empty list) |
| `InterviewProperties.ApplyKeepsCursorInRange` | src/pages/Interview.tsx:53-98 | one event keeps `currentQuestion` within the list (below its length while mounted) and every captured cursor below the length |
| `InterviewProperties.RunKeepsCursorInRange` | src/pages/Interview.tsx:53-98 | any sequence of events keeps the same cursor bounds |
| `InterviewProperties.CursorWithinQuestions` | src/pages/Interview.tsx:32-98 | on any run from mount, `currentQuestion` never exceeds the question count, and stays below it while the page is mounted; for an empty list it is at most 1 |
| `InterviewProperties.MessageIdsIdentifyIndex` | src/pages/Interview.tsx:61-90 | `ai-i` determines i, `user-q` determines q, and no AI id equals a user id |
| `InterviewProperties.MessageIdExamples` | src/pages/Interview.tsx:62 | ids are `ai-0`, `ai-4`, `user-12` for those indices |
| `InterviewProperties.MissingSelectionRedirects` | src/pages/Interview.tsx:41-45 | without a company or role, the page navigates to `/dashboard` only, schedules nothing, logs nothing, and no event ever changes it |
| `InterviewProperties.UnmountedPageIsFrozen` | src/pages/Interview.tsx:48-102 | after navigation, timers still run, but log, cursor and flags never change; later navigations are only `/results/1` |
| `InterviewProperties.EndAlwaysTargetsResultsOne` | src/pages/Interview.tsx:100-102 | once mounted with both selections, every navigation on any run is `/results/1` |
| `InterviewProperties.DeliveryAppendsQuestion` | src/pages/Interview.tsx:60-69 | the delivery timer appends exactly `ai-i` with question i and clears `isAiSpeaking` |
| `InterviewProperties.RecordingAppendsAnswer` | src/pages/Interview.tsx:77-91 | the recording timer clears `isListening`, appends `user-q` for the captured q, keeps the cursor and schedules the advance |
| `InterviewProperties.AdvanceAsksNextQuestion` | src/pages/Interview.tsx:94-97 | the advance timer sets the cursor to q + 1 and asks it: schedules its delivery, or navigates to `/results/1` when q + 1 reaches the count |
| `InterviewProperties.UnlistedRoleEndsAtOnce` | src/pages/Interview.tsx:38-56 | a role with no list ends the interview on the first timer with an empty log |
| `InterviewProperties.DesignerAndDevopsEndAtOnce` | src/pages/Interview.tsx:38-56 | `designer` and `devops` are such roles |
| `InterviewProperties.ToggleOffCancelsNothing` | src/pages/Interview.tsx:72-81 | on, off, on leaves two recording callbacks for the same captured cursor |
| `InterviewProperties.DoubleToggleDuplicatesAnswer` | src/pages/Interview.tsx:84-91 | when both run, the log gains two answers with the same id `user-q` |
| `InterviewCompletion.TranscriptAt` | src/pages/Interview.tsx:61-91 | in the transcript, question i is at position 2i and its answer at 2i + 1 |
| `InterviewCompletion.DeliverStep` | src/pages/Interview.tsx:60-69 | the delivery timer after question q is asked adds `ai-q` with question q and clears `isAiSpeaking` |
| `InterviewCompletion.MicStep` | src/pages/Interview.tsx:72-82 | switching the mic on then sets `isListening` and schedules the recording for q |
| `InterviewCompletion.RecordStep` | src/pages/Interview.tsx:77-91 | the recording timer completes the transcript of q + 1 questions and schedules the advance |
| `InterviewCompletion.AdvanceStep` | src/pages/Interview.tsx:94-97 | the advance timer asks question q + 1, or navigates to `/results/1` after the last |
| `InterviewCompletion.OneTurn` | src/pages/Interview.tsx:53-98 | delivery, mic on, recording end, advance: from question q asked to question q + 1 asked, or to finished after the last |
| `InterviewCompletion.TurnsFromFirstQuestion` | src/pages/Interview.tsx:53-98 | n turns from question 0 reach question n asked, or finished when n is the count |
| `InterviewCompletion.CompletedInterview` | src/pages/Interview.tsx:41-102 | answering every question yields the full transcript of 2N messages in question order, cursor N, nothing pending, and one navigation to `/results/1`; N = 0 ends on the first timer |

## Left out

- Rendering, styling, icons, animations and the dialog widget. The dialog's "End Interview" button is modelled only as the `EndConfirmed` event.
- The landing page and the dashboard. The dashboard's both-selected guard is enforced again by the mount guard modelled here.
- Router behaviour. Navigation is recorded as a route string, and parsing the route id of the results page is not modelled.
- Timer durations (1000, 1500, 3000 and 2000 ms) and message timestamps. Only the set of pending callbacks is modelled, so the model admits firing orders that the real delays exclude.
- `InterviewProperties.CursorWithinQuestions` does not state that `currentQuestion` never decreases. Without timer order, a stale `AdvanceQuestion(0)` may fire after `AdvanceQuestion(1)` and move the cursor from 2 back to 1; the real delays make that order impossible.
- React semantics beyond dropping state writes after unmount: StrictMode double effects, batching and re-render scheduling.
- Lookups of JavaScript prototype keys in the question table (a role id such as `constructor`). Role ids are treated as plain map keys.
- `Results.ScoreColor`: scores are modelled as reals. NaN and infinities of a JavaScript `number` are not modelled.
- The company and role lookups at src/pages/Interview.tsx:36-37. They feed only the page header.
- The results page's date formatting, and the download and retake buttons, which have no logic.
