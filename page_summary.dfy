/**
 * The summary-submission server action of the example textbook
 * (apps/example-poe/src/components/summary/page-summary.tsx, `onSubmit`).
 *
 * The services it awaits (validator, scorer, quiz status) are inputs; the
 * writes it makes (`createSummary`, `maybeCreateQuizCookie`,
 * `incrementUserPage`) are entries of an effect log.
 */
module PageSummary {
  import opened Wrappers
  import opened SummaryTypes
  import Location

  /** The feedback shown to the student. */
  datatype Feedback = Feedback(isPassed: bool, prompt: string, promptDetails: seq<string>, suggestedKeyphrases: seq<string>)

  /** The form state the action returns: `SummaryFormState & { showQuiz }`. */
  datatype FormState = FormState(canProceed: bool, error: Option<ErrorType>, showQuiz: bool, feedback: Option<Feedback>)

  /** `initialState`: nothing decided yet. */
  const InitialState := FormState(false, None, false, None)

  /** What the scorer answers; its scores are plain numbers. */
  datatype ScoreResponse = ScoreResponse(
    english: bool, isPassed: bool,
    prompt: string, promptDetails: seq<string>, suggestedKeyphrases: seq<string>,
    containment: real, similarity: real, wording: real, content: real)

  /** A row of the summary table. */
  datatype SummaryRecord = SummaryRecord(
    text: string, pageSlug: string, userId: string, isPassed: bool,
    containment: real, similarity: real, wording: real, content: real)

  /** The writes the action makes, in the order it makes them. */
  datatype Effect =
    | CreateSummary(summary: SummaryRecord)
    | CreateQuizCookie(pageSlug: string)
    | IncrementUserPage(userId: string, pageSlug: string)

  /** The answers of the services the action awaits during one submission. */
  datatype Services = Services(
    validation: Option<ErrorType>,  // `validateSummary(input)`
    response: Option<ScoreResponse>, // `getSummaryResponse(...).summaryResponse`
    simple: Feedback,                // `simpleFeedback()`
    quizUnfinished: bool)            // `isPageQuizUnfinished(pageSlug)`

  /** The page the form sits on. */
  datatype Page = Page(slug: string, hasQuiz: bool)

  /** The answer of one submission: the new form state and the writes made for it. */
  datatype Outcome = Outcome(state: FormState, effects: seq<Effect>)

  /** A write that stores a summary of `userId` for `pageSlug`. */
  predicate StoresSummaryFor(e: Effect, userId: string, pageSlug: string) {
    e.CreateSummary? && e.summary.userId == userId && e.summary.pageSlug == pageSlug
  }

  /** `getUserPageSummaryCount`: how many summaries of `userId` for `pageSlug` the log holds. */
  function SummaryCount(log: seq<Effect>, userId: string, pageSlug: string): (n: nat)
    ensures n <= |log|
  {
    if |log| == 0 then 0
    else
      SummaryCount(log[..|log| - 1], userId, pageSlug)
        + if StoresSummaryFor(log[|log| - 1], userId, pageSlug) then 1 else 0
  }

  /** The positions of the log that store a summary of `userId` for `pageSlug`. */
  ghost function SummaryPositions(log: seq<Effect>, userId: string, pageSlug: string): set<int> {
    set k | 0 <= k < |log| && StoresSummaryFor(log[k], userId, pageSlug)
  }

  /** The count is exactly the number of summary writes for this user and page. */
  lemma {:induction false} SummaryCountCounts(log: seq<Effect>, userId: string, pageSlug: string)
    ensures SummaryCount(log, userId, pageSlug) == |SummaryPositions(log, userId, pageSlug)|
  {
    if |log| == 0 {
      assert SummaryPositions(log, userId, pageSlug) == {};
    } else {
      var init := log[..|log| - 1];
      var last := |log| - 1;
      var tip: set<int> := if StoresSummaryFor(log[last], userId, pageSlug) then {last} else {};
      SummaryCountCounts(init, userId, pageSlug);
      assert SummaryPositions(log, userId, pageSlug) == SummaryPositions(init, userId, pageSlug) + tip;
      assert SummaryPositions(init, userId, pageSlug) !! tip;
    }
  }

  /** A summary row stored for this user and page adds one to the count; other writes add nothing. */
  lemma SummaryCountAppend(log: seq<Effect>, e: Effect, userId: string, pageSlug: string)
    ensures SummaryCount(log + [e], userId, pageSlug)
         == SummaryCount(log, userId, pageSlug) + if StoresSummaryFor(e, userId, pageSlug) then 1 else 0
  {
    assert (log + [e])[..|log|] == log;
  }

  /** The submission passes validation and, when feedback is on, the scorer answered in English. */
  predicate Accepted(user: Option<string>, feedbackEnabled: bool, services: Services) {
    && user.Some?
    && services.validation.None?
    && (feedbackEnabled ==> services.response.Some? && services.response.value.english)
  }

  /** The feedback of an accepted submission: the scorer's four fields, or `simpleFeedback()`. */
  function FeedbackOf(feedbackEnabled: bool, services: Services): (f: Feedback)
    requires feedbackEnabled ==> services.response.Some?
    ensures feedbackEnabled ==> f.isPassed == services.response.value.isPassed
                                && f.prompt == services.response.value.prompt
    ensures !feedbackEnabled ==> f == services.simple
  {
    if feedbackEnabled then
      var s := services.response.value;
      Feedback(s.isPassed, s.prompt, s.promptDetails, s.suggestedKeyphrases)
    else services.simple
  }

  /** The summary row the action stores: scorer results, or -1 scores when feedback is off. */
  function Record(input: string, page: Page, userId: string, feedbackEnabled: bool, services: Services): (r: SummaryRecord)
    requires feedbackEnabled ==> services.response.Some?
    // the row holds the input, counts towards this user's summaries of the page,
    // and records the verdict the student is shown
    ensures r.text == input && StoresSummaryFor(CreateSummary(r), userId, page.slug)
    ensures r.isPassed == FeedbackOf(feedbackEnabled, services).isPassed
    ensures !feedbackEnabled ==> r.containment == r.similarity == r.wording == r.content == -1.0
  {
    if feedbackEnabled then
      var s := services.response.value;
      SummaryRecord(input, page.slug, userId, s.isPassed, s.containment, s.similarity, s.wording, s.content)
    else
      SummaryRecord(input, page.slug, userId, services.simple.isPassed, -1.0, -1.0, -1.0, -1.0)
  }

  /** The writes of an accepted submission before the progression decision. */
  function StoredWrites(input: string, page: Page, userId: string, feedbackEnabled: bool, services: Services): seq<Effect>
    requires feedbackEnabled ==> services.response.Some?
  {
    [CreateSummary(Record(input, page, userId, feedbackEnabled, services))]
      + if page.hasQuiz then [CreateQuizCookie(page.slug)] else []
  }

  /**
   * The decision `onSubmit` makes for one submission. `storedCount` is how many
   * summaries of this user for this page were stored before it; the count the
   * action compares with the threshold is read after its own summary is stored.
   * `services.quizUnfinished` is taken as the settled answer of
   * `isPageQuizUnfinished`; see `ShowQuizAsWritten` for what the source does.
   */
  function Decide(
    prev: FormState, user: Option<string>, input: string, page: Page, feedbackEnabled: bool,
    services: Services, storedCount: nat, threshold: nat, sections: seq<Location.Section>): (r: Outcome)
    requires |sections| > 0
    // not signed in, rejected input, or a scorer failure: the previous state with the error, no writes
    ensures user.None? ==> r == Outcome(prev.(error := Some(Internal)), [])
    ensures user.Some? && services.validation.Some? ==> r == Outcome(prev.(error := services.validation), [])
    ensures user.Some? && services.validation.None? && feedbackEnabled && services.response.None?
            ==> r == Outcome(prev.(feedback := None, error := Some(Internal)), [])
    ensures user.Some? && services.validation.None? && feedbackEnabled && services.response.Some? && !services.response.value.english
            ==> r == Outcome(prev.(feedback := None, error := Some(LanguageNotEn)), [])
    // exactly the accepted submissions end without an error
    ensures r.state.error.None? <==> Accepted(user, feedbackEnabled, services)
    // an accepted submission stores exactly one summary, first, scored as the source says
    ensures Accepted(user, feedbackEnabled, services) ==>
              && |r.effects| > 0
              && r.effects[0] == CreateSummary(Record(input, page, user.value, feedbackEnabled, services))
              && forall k :: 0 < k < |r.effects| ==> !r.effects[k].CreateSummary?
    ensures Accepted(user, feedbackEnabled, services) && !feedbackEnabled ==>
              var rec := r.effects[0].summary;
              rec.isPassed == services.simple.isPassed
              && rec.containment == rec.similarity == rec.wording == rec.content == -1.0
    // the verdict comes from the scorer (or `simpleFeedback`); a pass, or a count that
    // reaches the threshold with the new summary included, advances the page
    ensures Accepted(user, feedbackEnabled, services) ==>
              var feedback := FeedbackOf(feedbackEnabled, services);
              var advances := feedback.isPassed || storedCount + 1 >= threshold;
              && r.state.feedback == Some(feedback)
              && |r.effects| == 1 + (if page.hasQuiz then 1 else 0) + (if advances then 1 else 0)
              && (advances <==> IncrementUserPage(user.value, page.slug) in r.effects)
              && (advances ==> && r.effects[|r.effects| - 1] == IncrementUserPage(user.value, page.slug)
                               && r.state.canProceed == !Location.IsLastPage(sections, page.slug)
                               && r.state.showQuiz == (page.hasQuiz && services.quizUnfinished))
              && (!advances ==> !r.state.canProceed && !r.state.showQuiz)
              && (CreateQuizCookie(page.slug) in r.effects <==> page.hasQuiz)
    // a fresh decision offers the quiz only on a quiz page whose quiz is unfinished
    // (an error answer keeps whatever `prev` said)
    ensures r.state.error.None? && r.state.showQuiz ==> page.hasQuiz && services.quizUnfinished
  {
    if user.None? then Outcome(prev.(error := Some(Internal)), [])
    else if services.validation.Some? then Outcome(prev.(error := services.validation), [])
    else if feedbackEnabled && services.response.None? then
      Outcome(prev.(feedback := None, error := Some(Internal)), [])
    else if feedbackEnabled && !services.response.value.english then
      Outcome(prev.(feedback := None, error := Some(LanguageNotEn)), [])
    else
      var userId := user.value;
      var feedback := FeedbackOf(feedbackEnabled, services);
      var stored := StoredWrites(input, page, userId, feedbackEnabled, services);
      var showQuiz := if page.hasQuiz then services.quizUnfinished else false;
      if feedback.isPassed || storedCount + 1 >= threshold then
        Outcome(FormState(!Location.IsLastPage(sections, page.slug), None, showQuiz, Some(feedback)),
                stored + [IncrementUserPage(userId, page.slug)])
      else
        Outcome(FormState(false, None, false, Some(feedback)), stored)
  }

  /** Helper: `Decide` on an accepted submission, unfolded once. */
  lemma DecideAccepted(
    prev: FormState, userId: string, input: string, page: Page, feedbackEnabled: bool,
    services: Services, storedCount: nat, threshold: nat, sections: seq<Location.Section>)
    requires |sections| > 0
    requires Accepted(Some(userId), feedbackEnabled, services)
    ensures var feedback := FeedbackOf(feedbackEnabled, services);
            var stored := StoredWrites(input, page, userId, feedbackEnabled, services);
            var showQuiz := if page.hasQuiz then services.quizUnfinished else false;
            Decide(prev, Some(userId), input, page, feedbackEnabled, services, storedCount, threshold, sections)
            == if feedback.isPassed || storedCount + 1 >= threshold
               then Outcome(FormState(!Location.IsLastPage(sections, page.slug), None, showQuiz, Some(feedback)),
                            stored + [IncrementUserPage(userId, page.slug)])
               else Outcome(FormState(false, None, false, Some(feedback)), stored)
  {
  }

  /** The services with the verdict of the summary's scoring set to `passed`. */
  function WithVerdict(feedbackEnabled: bool, services: Services, passed: bool): Services
    requires feedbackEnabled ==> services.response.Some?
  {
    if feedbackEnabled then services.(response := Some(services.response.value.(isPassed := passed)))
    else services.(simple := services.simple.(isPassed := passed))
  }

  /**
   * A failed summary at the threshold leaves the student where a passed one would,
   * with feedback on or off: same state apart from the feedback, same number of
   * writes, and the same final page increment.
   */
  lemma ThresholdAdvancesLikePass(
    prev: FormState, userId: string, input: string, page: Page, feedbackEnabled: bool,
    services: Services, storedCount: nat, threshold: nat, sections: seq<Location.Section>)
    requires |sections| > 0
    requires Accepted(Some(userId), feedbackEnabled, services)
    requires !FeedbackOf(feedbackEnabled, services).isPassed && storedCount + 1 >= threshold
    ensures var failed := Decide(prev, Some(userId), input, page, feedbackEnabled, services, storedCount, threshold, sections);
            var passed := Decide(prev, Some(userId), input, page, feedbackEnabled,
                                 WithVerdict(feedbackEnabled, services, true), storedCount, threshold, sections);
            && failed.state == passed.state.(feedback := failed.state.feedback)
            && |failed.effects| == |passed.effects|
            && failed.effects[|failed.effects| - 1] == passed.effects[|passed.effects| - 1]
  {
  }

  /**
   * `showQuiz` as the source computes it. `isPageQuizUnfinished` is exported by a
   * `"use server"` module, so it is async; called without `await`, it yields a
   * pending promise, which every JavaScript condition reads as true. The flag
   * therefore says only whether the page has a quiz, and it agrees with the
   * awaited answer exactly when the page has no quiz or its quiz is unfinished.
   */
  function ShowQuizAsWritten(page: Page, quizUnfinished: bool): (shown: bool)
    ensures (shown == (page.hasQuiz && quizUnfinished)) <==> (!page.hasQuiz || quizUnfinished)
  {
    page.hasQuiz
  }

  /**
   * A passed summary on a quiz page whose quiz is already finished: the source
   * offers the quiz again, while the awaited answer (`Decide`) does not.
   */
  lemma UnawaitedQuizFlagOffersFinishedQuiz()
    ensures var page := Page("what-is-law", true);
            var services := Services(None, None, Feedback(true, "", [], []), false);
            var sections := [Location.Section("what-is-law", true)];
            && ShowQuizAsWritten(page, services.quizUnfinished)
            && !Decide(InitialState, Some("student"), "summary", page, false, services, 0, 5, sections).state.showQuiz
  {
  }


  /** The server action with its writes: the log is every write made to the store so far. */
  class SummaryAction {
    var log: seq<Effect>

    constructor (history: seq<Effect>)
      ensures log == history
    {
      log := history;
    }

    /** `onSubmit(prevState, formData)`, its awaited writes appended to `log` one by one. */
    method OnSubmit(
      prev: FormState, user: Option<string>, input: string, page: Page, feedbackEnabled: bool,
      services: Services, threshold: nat, sections: seq<Location.Section>) returns (state: FormState)
      requires |sections| > 0
      modifies this
      ensures var storedCount := if user.Some? then SummaryCount(old(log), user.value, page.slug) else 0;
              var r := Decide(prev, user, input, page, feedbackEnabled, services, storedCount, threshold, sections);
              state == r.state && log == old(log) + r.effects
    {
      if user.None? {
        return prev.(error := Some(Internal));
      }
      if services.validation.Some? {
        return prev.(error := services.validation);
      }
      var feedback: Feedback;
      if feedbackEnabled {
        if services.response.None? {
          return prev.(feedback := None, error := Some(Internal));
        }
        var s := services.response.value;
        if !s.english {
          return prev.(feedback := None, error := Some(LanguageNotEn));
        }
        feedback := Feedback(s.isPassed, s.prompt, s.promptDetails, s.suggestedKeyphrases);
      } else {
        feedback := services.simple;
      }
      state := StoreAndProgress(prev, user.value, input, page, feedbackEnabled, services, feedback, threshold, sections);
    }

    /** The part of `onSubmit` after the submission is accepted: store, then decide whether to advance. */
    method StoreAndProgress(
      prev: FormState, userId: string, input: string, page: Page, feedbackEnabled: bool,
      services: Services, feedback: Feedback, threshold: nat, sections: seq<Location.Section>) returns (state: FormState)
      requires |sections| > 0
      requires Accepted(Some(userId), feedbackEnabled, services)
      requires feedback == FeedbackOf(feedbackEnabled, services)
      modifies this
      ensures var storedCount := SummaryCount(old(log), userId, page.slug);
              var r := Decide(prev, Some(userId), input, page, feedbackEnabled, services, storedCount, threshold, sections);
              state == r.state && log == old(log) + r.effects
    {
      var rec := Record(input, page, userId, feedbackEnabled, services);
      ghost var storedCount := SummaryCount(log, userId, page.slug);
      ghost var stored := StoredWrites(input, page, userId, feedbackEnabled, services);
      DecideAccepted(prev, userId, input, page, feedbackEnabled, services, storedCount, threshold, sections);
      SummaryCountAppend(log, CreateSummary(rec), userId, page.slug);
      log := log + [CreateSummary(rec)];
      if page.hasQuiz {
        SummaryCountAppend(log, CreateQuizCookie(page.slug), userId, page.slug);
        log := log + [CreateQuizCookie(page.slug)];
      }
      assert log == old(log) + stored;
      var showQuiz := if page.hasQuiz then services.quizUnfinished else false;
      if feedback.isPassed {
        log := log + [IncrementUserPage(userId, page.slug)];
        return FormState(!Location.IsLastPage(sections, page.slug), None, showQuiz, Some(feedback));
      }
      var summaryCount := SummaryCount(log, userId, page.slug);
      assert summaryCount == storedCount + 1;
      if summaryCount >= threshold {
        log := log + [IncrementUserPage(userId, page.slug)];
        return FormState(!Location.IsLastPage(sections, page.slug), None, showQuiz, Some(feedback));
      }
      return FormState(false, None, false, Some(feedback));
    }
  }
}
