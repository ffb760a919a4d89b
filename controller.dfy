/**
 * The survey controller (`App`): which screen is shown, the shuffled question
 * queue, the position in it, the append-only response log and the final
 * submission. Every handler runs as one atomic step; the remote store's write
 * is an outcome passed in, and the handlers report the payload they hand to it.
 */
module Controller {
  import opened Questions
  import opened Shuffle
  import opened Intake

  datatype Screen = Intro | Survey | Results

  /** The three buttons of a question: option A, option B and "I wouldn't choose either". */
  datatype Choice = ChoseA | ChoseB | ChoseNone

  /** An ISO-8601 time stamp taken from the clock; its value is never inspected. */
  type Timestamp = string

  /** One answered question: `orderIndex` is the 1-based position in the
      session, and `questionSet` is the set exactly as it was shown. */
  datatype ResponseRecord = ResponseRecord(
    questionId: int,
    orderIndex: int,
    choice: Choice,
    questionSet: QuestionSet,
    timestamp: Timestamp)

  /** The document written to the `rumble_responses` collection. */
  datatype Submission = Submission(
    userId: UserId,
    demographics: Option<Demographics>,
    responses: seq<ResponseRecord>,
    deviceType: Device)

  /** What the store's write did; the controller behaves the same either way. */
  datatype WriteOutcome = Written | WriteFailed(message: string)

  /** The log answers the first `|h|` questions of the queue `q`, in order. */
  ghost predicate AnsweredInOrder(h: seq<ResponseRecord>, q: seq<QuestionSet>) {
    |h| <= |q| &&
    forall k :: 0 <= k < |h| ==>
      h[k].questionId == q[k].questionId && h[k].orderIndex == k + 1 && h[k].questionSet == q[k]
  }

  /** The question identifiers recorded in a log, in order. */
  function RecordedIds(h: seq<ResponseRecord>): (r: seq<int>)
    ensures |r| == |h|
  {
    seq(|h|, k requires 0 <= k < |h| => h[k].questionId)
  }

  /** The order indices recorded in a log, in order. */
  function OrderIndices(h: seq<ResponseRecord>): (r: seq<int>)
    ensures |r| == |h|
  {
    seq(|h|, k requires 0 <= k < |h| => h[k].orderIndex)
  }

  /** A finished session answered every question of the bank exactly once:
      its log has eight records whose question identifiers are 1 to 8 in some
      order and whose order indices are 1 to 8 in order. */
  lemma CompletedLog(h: seq<ResponseRecord>, q: seq<QuestionSet>)
    requires multiset(q) == multiset(FixedQuestions)
    requires AnsweredInOrder(h, q) && |h| == |q|
    ensures |h| == TotalQuestions == 8
    ensures multiset(RecordedIds(h)) == multiset{1, 2, 3, 4, 5, 6, 7, 8}
    ensures OrderIndices(h) == [1, 2, 3, 4, 5, 6, 7, 8]
  {
    BankArrangement(q);
    assert RecordedIds(h) == Ids(q);
    var o := OrderIndices(h);
    assert forall k :: 0 <= k < 8 ==> o[k] == k + 1;
  }

  /** The bank has no repeated set, so two sessions see their questions in
      the same order exactly when the shuffle drew the same numbers. */
  lemma QueueDeterminesDraws(d1: seq<nat>, d2: seq<nat>)
    requires ValidDraws(TotalQuestions, d1) && ValidDraws(TotalQuestions, d2)
    ensures Shuffled(FixedQuestions, d1) == Shuffled(FixedQuestions, d2) <==> d1 == d2
  {
    if Shuffled(FixedQuestions, d1) == Shuffled(FixedQuestions, d2) {
      BankIdentifiers();
      DrawsDetermineResult(FixedQuestions, d1, d2);
    }
  }

  /** The controller state of one browser session. */
  class App {
    /** Whether store credentials were configured when the page loaded (`db`). */
    const storeConfigured: bool
    /** `FIXED_QUESTIONS`, the array that every session shuffles a copy of. */
    const bank: array<QuestionSet>

    var screen: Screen
    var demographics: Option<Demographics>
    var questionQueue: seq<QuestionSet>
    var currentQuestionIndex: nat
    var history: seq<ResponseRecord>
    var user: Option<UserId>
    var isSubmitting: bool

    /** The invariant every handler keeps. */
    ghost predicate Valid()
      reads this, bank
    {
      && bank[..] == FixedQuestions
      && !isSubmitting
      // the auth listener is only registered when the store is configured
      && (!storeConfigured ==> user == None)
      && (screen == Intro ==>
            demographics == None && questionQueue == [] && currentQuestionIndex == 0 && history == [])
      && (screen != Intro ==>
            && demographics.Some?
            && multiset(questionQueue) == multiset(FixedQuestions)
            && AnsweredInOrder(history, questionQueue))
      && (screen == Survey ==> |history| == currentQuestionIndex < |questionQueue|)
      && (screen == Results ==> |history| == |questionQueue| == currentQuestionIndex + 1)
    }

    /** The initial render: the intro screen with nothing collected yet. */
    constructor (storeConfigured: bool)
      ensures Valid() && fresh(bank)
      ensures this.storeConfigured == storeConfigured
      ensures screen == Intro && demographics == None && questionQueue == []
      ensures currentQuestionIndex == 0 && history == [] && user == None && !isSubmitting
    {
      this.storeConfigured := storeConfigured;
      bank := new QuestionSet[|FixedQuestions|](k requires 0 <= k < |FixedQuestions| => FixedQuestions[k]);
      screen := Intro;
      demographics := None;
      questionQueue := [];
      currentQuestionIndex := 0;
      history := [];
      user := None;
      isSubmitting := false;
      new;
      assert bank[..] == FixedQuestions;
    }

    /** The `onAuthStateChanged` listener, which exists only when the store is
        configured: it records the signed-in user, or its absence. */
    method OnAuthStateChanged(current: Option<UserId>)
      requires Valid() && storeConfigured
      modifies this`user
      ensures Valid() && user == current
    {
      user := current;
    }

    /** `startSurvey`: keeps the demographics, shuffles a copy of the bank with
        the given draws, and opens the first question with an empty log. */
    method StartSurvey(data: Demographics, draws: seq<nat>)
      requires Valid() && ValidDraws(TotalQuestions, draws)
      modifies this
      ensures Valid() && screen == Survey
      ensures demographics == Some(data)
      ensures questionQueue == Shuffled(FixedQuestions, draws)
      ensures multiset(questionQueue) == multiset(FixedQuestions)
      ensures currentQuestionIndex == 0 && history == []
      ensures user == old(user)
    {
      var shuffledQuestions := ShuffleArray(bank, draws);
      var queue := shuffledQuestions[..];
      demographics, questionQueue, currentQuestionIndex, history, screen :=
        Some(data), queue, 0, [], Survey;
    }

    /** The start button of the intro screen: it calls `startSurvey` only when
        the form is complete and a user is signed in, and does nothing otherwise. */
    method PressStart(form: Demographics, draws: seq<nat>)
      requires Valid() && screen == Intro && ValidDraws(TotalQuestions, draws)
      modifies this
      ensures Valid()
      ensures CanStart(form, old(user)) ==>
        && screen == Survey && demographics == Some(form)
        && questionQueue == Shuffled(FixedQuestions, draws)
        && currentQuestionIndex == 0 && history == []
        && user == old(user)
      ensures !CanStart(form, old(user)) ==> unchanged(this)
    {
      if CanStart(form, user) {
        StartSurvey(form, draws);
      }
    }

    /** `handleChoice`: appends the record of the current question to the log;
        then either moves to the next question or, after the last one, runs
        `finishSurvey` on the new log. All three choices take the same path. */
    method HandleChoice(choice: Choice, now: Timestamp, userAgent: string, outcome: WriteOutcome)
      returns (submitted: Option<Submission>)
      requires Valid() && screen == Survey
      modifies this
      ensures Valid()
      ensures history == old(history) + [ResponseRecord(
        old(questionQueue)[old(currentQuestionIndex)].questionId,
        old(currentQuestionIndex) + 1,
        choice,
        old(questionQueue)[old(currentQuestionIndex)],
        now)]
      ensures questionQueue == old(questionQueue) && demographics == old(demographics)
      ensures user == old(user)
      ensures old(currentQuestionIndex) < TotalQuestions - 1 ==>
        screen == Survey && currentQuestionIndex == old(currentQuestionIndex) + 1 && submitted == None
      ensures old(currentQuestionIndex) >= TotalQuestions - 1 ==>
        && screen == Results && currentQuestionIndex == old(currentQuestionIndex)
        && submitted == (if storeConfigured && user.Some?
                         then Some(Submission(user.value, demographics, history, DeviceType(userAgent)))
                         else None)
    {
      assert |questionQueue| == |multiset(questionQueue)| == |multiset(FixedQuestions)| == TotalQuestions;
      var currentSet := questionQueue[currentQuestionIndex];
      var record := ResponseRecord(
        currentSet.questionId, currentQuestionIndex + 1, choice, currentSet, now);
      var newHistory := history + [record];
      history := newHistory;
      if currentQuestionIndex >= TotalQuestions - 1 {
        submitted := FinishSurvey(newHistory, userAgent, outcome);
      } else {
        currentQuestionIndex := currentQuestionIndex + 1;
        submitted := None;
      }
    }

    /** `finishSurvey`: hands the session to the store only when the store is
        configured and a user is signed in; a failed write is logged and
        swallowed, so every path ends on the results screen, not submitting. */
    method FinishSurvey(finalHistory: seq<ResponseRecord>, userAgent: string, outcome: WriteOutcome)
      returns (submitted: Option<Submission>)
      modifies this`isSubmitting, this`screen
      ensures screen == Results && !isSubmitting
      ensures submitted == (if storeConfigured && user.Some?
                            then Some(Submission(user.value, demographics, finalHistory, DeviceType(userAgent)))
                            else None)
    {
      isSubmitting := true;
      if storeConfigured && user.Some? {
        submitted := Some(Submission(user.value, demographics, finalHistory, DeviceType(userAgent)));
        // `outcome` is the result of the write; neither result changes the state
      } else {
        submitted := None;
      }
      isSubmitting := false;
      screen := Results;
    }

    /** `resetSurvey`: back to the intro screen with demographics, log, queue
        and position cleared; the signed-in user stays. */
    method ResetSurvey()
      requires Valid()
      modifies this
      ensures Valid()
      ensures screen == Intro && demographics == None && history == []
      ensures questionQueue == [] && currentQuestionIndex == 0
      ensures user == old(user)
    {
      screen := Intro;
      demographics := None;
      history := [];
      questionQueue := [];
      currentQuestionIndex := 0;
    }
  }

  /** On the results screen the log covers the whole bank (see CompletedLog). */
  lemma FinishedSession(app: App)
    requires app.Valid() && app.screen == Results
    ensures |app.history| == TotalQuestions
    ensures multiset(RecordedIds(app.history)) == multiset{1, 2, 3, 4, 5, 6, 7, 8}
    ensures OrderIndices(app.history) == [1, 2, 3, 4, 5, 6, 7, 8]
  {
    CompletedLog(app.history, app.questionQueue);
  }

  /** Without a configured store no user is ever signed in, so the start gate
      stays closed whatever the form holds. */
  lemma StartBlockedWithoutStore(app: App, form: Demographics)
    requires app.Valid() && !app.storeConfigured
    ensures !CanStart(form, app.user)
  {
  }
}
