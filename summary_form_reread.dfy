/**
 * The reread summary form of the chevron textbook
 * (apps/chevron/src/components/summary/summary-form-reread.tsx): an immer
 * reducer over four fields, and a submit handler that drives it.
 */
module SummaryFormReread {
  import opened Wrappers
  import opened SummaryTypes

  /** The reducer's actions. */
  datatype Action =
    | Submit
    | Fail(error: ErrorType)
    | Finish(finished: bool)
    | SetPrevInput(input: string)

  /** What the scorer answers, once its JSON has passed the schema. */
  datatype ScoreResponse = ScoreResponse(
    isPassed: Option<bool>, containment: real, similarity: real, language: real, content: real)

  /** A row of the summary table, stored under the random-reread condition. */
  datatype SummaryRecord = SummaryRecord(
    text: string, userId: string, pageSlug: string, isPassed: bool,
    containment: real, similarity: real, language: real, content: real)

  /** The calls the handler makes outside the reducer, in order. */
  datatype Call =
    | SaveSummaryLocal(pageSlug: string, input: string)
    | CreateSummary(summary: SummaryRecord)
    | IncrementUserPage(userId: string, pageSlug: string)
    | UpdateUserFinished
    | UpdateUserPageSlug(slug: string)
    | HighlightRandomChunk

  /** The text with every NUL character taken out (`replaceAll("\u0000", "")`). */
  function StripNul(s: string): (r: string)
    ensures '\0' !in r
    ensures |r| <= |s|
    ensures '\0' !in s ==> r == s
  {
    if |s| == 0 then ""
    else if s[0] == '\0' then StripNul(s[1..])
    else [s[0]] + StripNul(s[1..])
  }

  /** Stripping distributes over concatenation. */
  lemma {:induction false} StripNulConcat(a: string, b: string)
    ensures StripNul(a + b) == StripNul(a) + StripNul(b)
  {
    if |a| > 0 {
      assert (a + b)[1..] == a[1..] + b;
      StripNulConcat(a[1..], b);
    } else {
      assert a + b == b;
    }
  }

  /** Stripping keeps every other character as often as it occurs, and no NUL. */
  lemma {:induction false} StripNulKeepsOthers(s: string, c: char)
    requires c != '\0'
    ensures multiset(StripNul(s))[c] == multiset(s)[c]
    ensures multiset(StripNul(s))['\0'] == 0
  {
    if |s| > 0 {
      assert s == [s[0]] + s[1..];
      StripNulKeepsOthers(s[1..], c);
    }
  }

  /** Sanitising twice is sanitising once. */
  lemma StripNulIdempotent(s: string)
    ensures StripNul(StripNul(s)) == StripNul(s)
  {
  }

  /** The submit button's caption. */
  datatype Label = SubmitLabel | ResubmitLabel

  class RereadForm {
    const pageSlug: string
    const userId: string
    const unlocked: bool  // `pageStatus.unlocked`

    // the reducer's state
    var prevInput: string
    var pending: bool
    var error: Option<ErrorType>
    var finished: bool

    var textbookFinished: bool  // `isTextbookFinished`
    var dispatched: seq<Action>  // every action handed to the reducer, in order
    var calls: seq<Call>         // every call made outside the reducer, in order

    /** The form as first rendered: `initialState` and `useState(user.finished)`. */
    constructor (pageSlug: string, userId: string, unlocked: bool, userFinished: bool)
      ensures this.pageSlug == pageSlug && this.userId == userId && this.unlocked == unlocked
      ensures prevInput == "" && !pending && error == None && finished == unlocked
      ensures textbookFinished == userFinished && dispatched == [] && calls == []
    {
      this.pageSlug := pageSlug;
      this.userId := userId;
      this.unlocked := unlocked;
      prevInput := "";
      pending := false;
      error := None;
      finished := unlocked;
      textbookFinished := userFinished;
      dispatched := [];
      calls := [];
    }

    /** The reducer: each action writes only the fields its case names. */
    method Dispatch(a: Action)
      modifies this`prevInput, this`pending, this`error, this`finished, this`dispatched
      ensures dispatched == old(dispatched) + [a]
      ensures a.SetPrevInput? ==> prevInput == a.input && pending == old(pending) && error == old(error) && finished == old(finished)
      ensures a.Submit? ==> pending && error == None && prevInput == old(prevInput) && finished == old(finished)
      ensures a.Fail? ==> !pending && error == Some(a.error) && prevInput == old(prevInput) && finished == old(finished)
      ensures a.Finish? ==> !pending && finished == a.finished && prevInput == old(prevInput) && error == old(error)
      // what the form shows afterwards
      ensures a.Submit? ==> forall isSummaryReady :: InputDisabled(isSummaryReady)
      ensures (a.Fail? || a.Finish?) ==> forall isSummaryReady :: InputDisabled(isSummaryReady) <==> !isSummaryReady
      ensures a.SetPrevInput? ==> ButtonLabel() == if a.input == "" then SubmitLabel else ResubmitLabel
    {
      match a {
        case SetPrevInput(input) =>
          prevInput := input;
        case Submit =>
          pending := true;
          error := None;
        case Fail(e) =>
          pending := false;
          error := Some(e);
        case Finish(b) =>
          pending := false;
          finished := b;
      }
      dispatched := dispatched + [a];
    }

    /**
     * `onSubmit`. The network and database answers are inputs: `response` is
     * None when the fetch, the JSON or the schema fails; `stored` is false when
     * `createSummary` throws; `nextSlug` is None when `incrementUserPage` throws.
     * `isLast` is `isLastPage(pageSlug)`; `isProduction` the build flag.
     */
    method OnSubmit(raw: string, response: Option<ScoreResponse>, stored: bool, nextSlug: Option<string>,
                    isLast: bool, isProduction: bool) returns (ok: bool)
      modifies this
      ensures ok <==> response.Some? && stored && nextSlug.Some?
      ensures var input := StripNul(raw);
              dispatched == old(dispatched) + [Submit, SetPrevInput(input)] + [if ok then Finish(true) else Fail(Internal)]
      ensures prevInput == StripNul(raw) && !pending
      // afterwards the button offers to resubmit any non-empty summary, and the input is locked only while not ready
      ensures ButtonLabel() == if StripNul(raw) == "" then SubmitLabel else ResubmitLabel
      ensures forall isSummaryReady :: InputDisabled(isSummaryReady) <==> !isSummaryReady
      ensures ok ==> finished && error == None
      ensures !ok ==> finished == old(finished) && error == Some(Internal)
      ensures var input := StripNul(raw);
              var saved := old(calls) + [SaveSummaryLocal(pageSlug, input)];
              if !ok then
                && textbookFinished == old(textbookFinished)
                && calls == saved + (if response.Some? && stored then [CreateSummary(Summary(input, response.value))] else [])
              else
                var written := saved + [CreateSummary(Summary(input, response.value)), IncrementUserPage(userId, pageSlug)];
                if isLast then
                  textbookFinished && calls == written + [UpdateUserFinished]
                else
                  && textbookFinished == old(textbookFinished)
                  && calls == written + [UpdateUserPageSlug(nextSlug.value)]
                                      + (if !isProduction || !unlocked then [HighlightRandomChunk] else [])
    {
      Dispatch(Submit);
      var input := StripNul(raw);
      calls := calls + [SaveSummaryLocal(pageSlug, input)];
      Dispatch(SetPrevInput(input));

      if response.None? {
        Dispatch(Fail(Internal));
        return false;
      }
      if !stored {
        Dispatch(Fail(Internal));
        return false;
      }
      calls := calls + [CreateSummary(Summary(input, response.value))];
      if nextSlug.None? {
        Dispatch(Fail(Internal));
        return false;
      }
      calls := calls + [IncrementUserPage(userId, pageSlug)];
      Dispatch(Finish(true));
      ok := true;

      if isLast {
        calls := calls + [UpdateUserFinished];
        textbookFinished := true;
        return;
      }
      calls := calls + [UpdateUserPageSlug(nextSlug.value)];
      if !isProduction || !unlocked {
        calls := calls + [HighlightRandomChunk];
      }
    }

    /** The row `createSummary` stores; a missing `is_passed` counts as failed. */
    function Summary(input: string, s: ScoreResponse): (r: SummaryRecord)
      reads this
      ensures r.text == input && r.userId == userId && r.pageSlug == pageSlug
      ensures r.isPassed <==> s.isPassed == Some(true)
    {
      SummaryRecord(input, userId, pageSlug, s.isPassed.GetOr(false), s.containment, s.similarity, s.language, s.content)
    }

    /** The caption: "Submit" until a summary has been sent, "Resubmit" after. */
    function ButtonLabel(): (l: Label)
      reads this
      ensures l == SubmitLabel <==> prevInput == ""
    {
      if prevInput == "" then SubmitLabel else ResubmitLabel
    }

    /** The text area is locked while a submission is pending or the page is not ready. */
    function InputDisabled(isSummaryReady: bool): (d: bool)
      reads this
      ensures d <==> pending || !isSummaryReady
    {
      pending || !isSummaryReady
    }
  }
}
