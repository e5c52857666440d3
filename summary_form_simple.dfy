/**
 * The simple summary form of the chevron textbook
 * (apps/chevron/src/components/summary/summary-form-simple.tsx): the student
 * reads a reference summary and marks the page completed.
 */
module SummaryFormSimple {
  import opened Wrappers

  /** `chunks.at(-1)`: the last chunk, undefined for no chunks. */
  function LastChunk(chunks: seq<string>): (r: Option<string>)
    ensures r.None? <==> |chunks| == 0
    ensures r.Some? ==> r.value == chunks[|chunks| - 1]
  {
    if |chunks| == 0 then None else Some(chunks[|chunks| - 1])
  }

  /** `isReady`: the page is unlocked, or the reader has reached its last chunk. */
  function IsReady(unlocked: bool, currentChunk: string, chunks: seq<string>): (r: bool)
    ensures r <==> unlocked || (|chunks| > 0 && currentChunk == chunks[|chunks| - 1])
    ensures |chunks| == 0 ==> (r <==> unlocked)
  {
    unlocked || LastChunk(chunks) == Some(currentChunk)
  }

  /** No chunk slug occurs twice. */
  ghost predicate DistinctChunks(chunks: seq<string>) {
    forall i, j :: 0 <= i < j < |chunks| ==> chunks[i] != chunks[j]
  }

  /**
   * On a locked page with distinct chunk slugs, exactly one chunk position makes
   * the form ready: the last one. Reading any earlier chunk is not enough.
   */
  lemma LockedReadyOnlyAtLastChunk(chunks: seq<string>, i: nat)
    requires DistinctChunks(chunks) && i < |chunks|
    ensures IsReady(false, chunks[i], chunks) <==> i == |chunks| - 1
  {
  }

  /** A nullable slug in a JavaScript condition: absent and "" are both false. */
  predicate HasNext(nextPageSlug: Option<string>) {
    nextPageSlug.Some? && nextPageSlug.value != ""
  }

  /** The caption of the submit button. */
  datatype Label = MarkAsCompleted | GoToNextPage | TextbookFinished

  /** The button is disabled once the page is finished and there is nowhere to go. */
  function ButtonDisabled(finished: bool, nextPageSlug: Option<string>): (d: bool)
    ensures d ==> finished
    ensures finished ==> (d <==> !HasNext(nextPageSlug))
  {
    finished && !HasNext(nextPageSlug)
  }

  /** The caption for each state; "Textbook finished" shows exactly when the button is disabled. */
  function ButtonLabel(finished: bool, nextPageSlug: Option<string>): (l: Label)
    ensures l == MarkAsCompleted <==> !finished
    ensures l == TextbookFinished <==> ButtonDisabled(finished, nextPageSlug)
  {
    if !finished then MarkAsCompleted
    else if HasNext(nextPageSlug) then GoToNextPage
    else TextbookFinished
  }

  /** The three ways a submit ends, and the error `useActionStatus` catches. */
  datatype SubmitOutcome = Navigated(slug: string) | Advanced | FinishedTextbook | Failed

  /** The calls the action makes, in order. */
  datatype Call =
    | Push(slug: string)
    | IncrementUserPage(userId: string, pageSlug: string)
    | UpdateUserPageSlug(slug: string)
    | UpdateUserFinished

  class SimpleForm {
    const userId: string
    const pageSlug: string
    const nextPageSlug: Option<string>
    var finished: bool
    var calls: seq<Call>

    /** `useState(pageStatus.unlocked)`. */
    constructor (userId: string, pageSlug: string, nextPageSlug: Option<string>, unlocked: bool)
      ensures this.userId == userId && this.pageSlug == pageSlug && this.nextPageSlug == nextPageSlug
      ensures finished == unlocked && calls == []
    {
      this.userId := userId;
      this.pageSlug := pageSlug;
      this.nextPageSlug := nextPageSlug;
      finished := unlocked;
      calls := [];
    }

    /**
     * The submit action. `nextSlug` is what `incrementUserPage` answers, None
     * when it throws; `isLast` is `isLastPage(pageSlug)`.
     */
    method Submit(nextSlug: Option<string>, isLast: bool) returns (outcome: SubmitOutcome)
      modifies this
      ensures old(finished) && HasNext(nextPageSlug) ==>
                outcome == Navigated(nextPageSlug.value) && finished && calls == old(calls) + [Push(nextPageSlug.value)]
      ensures !(old(finished) && HasNext(nextPageSlug)) && nextSlug.None? ==>
                outcome == Failed && finished == old(finished) && calls == old(calls)
      ensures !(old(finished) && HasNext(nextPageSlug)) && nextSlug.Some? ==>
                && finished
                && outcome == (if isLast then FinishedTextbook else Advanced)
                && calls == old(calls) + [IncrementUserPage(userId, pageSlug)]
                            + [if isLast then UpdateUserFinished else UpdateUserPageSlug(nextSlug.value)]
    {
      if finished {
        if HasNext(nextPageSlug) {
          calls := calls + [Push(nextPageSlug.value)];
          return Navigated(nextPageSlug.value);
        }
      }
      if nextSlug.None? {
        return Failed;
      }
      calls := calls + [IncrementUserPage(userId, pageSlug)];
      if !isLast {
        calls := calls + [UpdateUserPageSlug(nextSlug.value)];
        outcome := Advanced;
      } else {
        calls := calls + [UpdateUserFinished];
        outcome := FinishedTextbook;
      }
      finished := true;
    }
  }

  /**
   * Clicking an enabled button always moves on: the first click on a page with
   * a next page marks it finished, and the second one navigates to it.
   */
  method MarkThenGo(form: SimpleForm, nextSlug: string, isLast: bool) returns (first: SubmitOutcome, second: SubmitOutcome)
    requires !form.finished && HasNext(form.nextPageSlug)
    modifies form
    ensures first == Advanced || first == FinishedTextbook
    ensures second == Navigated(form.nextPageSlug.value)
  {
    first := form.Submit(Some(nextSlug), isLast);
    second := form.Submit(Some(nextSlug), isLast);
  }
}
