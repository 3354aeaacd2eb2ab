/**
 * The state of the admin review page (src/pages/admin/review/page.tsx) and the
 * handlers that change it. Each React state variable and ref is a field; a
 * handler is a method that performs its state updates and then, when it changed
 * a dependency of the auto-save effect (the draft array, the comment text or the
 * selected id), one pass of that effect.
 *
 * Time is made explicit: `Tick` runs one queued zero-delay callback that clears
 * the skip flag, and `Fire` runs the pending 700 ms auto-save callback. Backend
 * writes are appended to `writes`; whether a write succeeds and what a re-fetch
 * returns are parameters.
 */
module AdminReviewPage {
  import opened Wrappers
  import opened JsValues
  import opened AdminReview

  /** The debounce delay of the auto-save, in milliseconds. */
  const AutoSaveDelayMs: nat := 700

  /** What the scheduled auto-save callback captured when it was scheduled. */
  datatype AutoSaveJob = AutoSaveJob(eventId: string, predictions: seq<Match>, comments: string)

  /** The body of one `reviewAdminEvent` request. */
  datatype ReviewPayload = ReviewPayload(eventId: string, adminPredictions: seq<Match>, adminComments: string, approved: bool)

  class ReviewPage {
    var events: seq<DailyEvent>
    var publishedEvents: seq<DailyEvent>
    var selectedEvent: Option<DailyEvent>
    var adminPredictions: seq<Match>
    var adminComments: string
    var resultStatus: string
    var resultDetails: string
    /** `skipAutoSaveRef.current` */
    var skipAutoSave: bool
    /** zero-delay callbacks queued to clear `skipAutoSave` and not yet run */
    var pendingSkipClears: nat
    /** the auto-save callback waiting on its 700 ms timer, if any */
    var autoSaveTimer: Option<AutoSaveJob>
    /** every `reviewAdminEvent` request issued, in order */
    var writes: seq<ReviewPayload>

    /**
     * A pending auto-save belongs to the current selection and carries exactly
     * the draft and comments on screen (any change to them re-ran the effect,
     * whose cleanup cancelled the older timer); the skip flag is only up while a
     * callback that clears it is queued.
     */
    predicate Valid()
      reads this
    {
      && (autoSaveTimer.Some? ==>
            selectedEvent.Some? && !skipAutoSave
            && autoSaveTimer.value == AutoSaveJob(selectedEvent.value.id, adminPredictions, adminComments))
      && (skipAutoSave ==> pendingSkipClears > 0)
    }

    /** The timer one pass of the auto-save effect leaves behind. */
    function EffectTimer(): (t: Option<AutoSaveJob>)
      reads this
      ensures t.Some? <==> selectedEvent.Some? && !skipAutoSave
      ensures t.Some? ==> t.value.predictions == adminPredictions && t.value.comments == adminComments
    {
      if selectedEvent.Some? && !skipAutoSave then
        Some(AutoSaveJob(selectedEvent.value.id, adminPredictions, adminComments))
      else None
    }

    /** The page once mounted: the mount effect has lowered the skip flag, nothing is selected. */
    constructor()
      ensures Valid()
      ensures events == [] && publishedEvents == [] && selectedEvent == None
      ensures adminPredictions == [] && adminComments == "" && resultStatus == "" && resultDetails == ""
      ensures !skipAutoSave && pendingSkipClears == 0 && autoSaveTimer == None && writes == []
    {
      events := [];
      publishedEvents := [];
      selectedEvent := None;
      adminPredictions := [];
      adminComments := "";
      resultStatus := "";
      resultDetails := "";
      skipAutoSave := false;
      pendingSkipClears := 0;
      autoSaveTimer := None;
      writes := [];
    }

    /**
     * One pass of the auto-save effect: the previous pass's cleanup cancels its
     * timer, then a new 700 ms timer is set unless nothing is selected or the
     * skip flag is up.
     */
    method AutoSaveEffect()
      modifies this`autoSaveTimer
      ensures autoSaveTimer == EffectTimer()
    {
      autoSaveTimer := EffectTimer();
    }

    /** The shared part of `selectEvent` and the re-selection in `fetchEvents`. */
    method Open(e: DailyEvent)
      requires Valid()
      modifies this`skipAutoSave, this`pendingSkipClears, this`selectedEvent, this`adminPredictions,
               this`adminComments, this`autoSaveTimer
      ensures Valid()
      ensures skipAutoSave && pendingSkipClears == old(pendingSkipClears) + 1
      ensures selectedEvent == Some(e) && adminPredictions == LoadDraft(e) && adminComments == e.adminComments
      ensures autoSaveTimer == None
    {
      skipAutoSave := true;
      selectedEvent := Some(e);
      adminPredictions := LoadDraft(e);
      adminComments := e.adminComments;
      pendingSkipClears := pendingSkipClears + 1;
      AutoSaveEffect();
    }

    /** `selectEvent`: open an event without scheduling a write for the load itself. */
    method SelectEvent(e: DailyEvent)
      requires Valid()
      modifies this`skipAutoSave, this`pendingSkipClears, this`selectedEvent, this`adminPredictions,
               this`adminComments, this`autoSaveTimer, this`resultStatus, this`resultDetails
      ensures Valid()
      ensures skipAutoSave && pendingSkipClears == old(pendingSkipClears) + 1
      ensures selectedEvent == Some(e) && adminPredictions == LoadDraft(e) && adminComments == e.adminComments
      ensures resultStatus == (if e.status != "" then e.status else "PENDING") && resultDetails == e.result
      ensures autoSaveTimer == None
    {
      Open(e);
      resultStatus := if e.status != "" then e.status else "PENDING";
      resultDetails := e.result;
    }

    /** The zero-delay callback queued by a load: it lowers the skip flag. */
    method Tick()
      requires Valid()
      modifies this`skipAutoSave, this`pendingSkipClears
      ensures Valid()
      ensures old(pendingSkipClears) == 0 ==> skipAutoSave == old(skipAutoSave) && pendingSkipClears == 0
      ensures old(pendingSkipClears) > 0 ==> !skipAutoSave && pendingSkipClears == old(pendingSkipClears) - 1
    {
      if pendingSkipClears > 0 {
        pendingSkipClears := pendingSkipClears - 1;
        skipAutoSave := false;
      }
    }

    /**
     * `fetchEvents`: replace both lists from the payload (only reviewable
     * published events are shown) and re-select the open event by id, or drop
     * the selection when the id is gone; a failed fetch empties both lists and
     * leaves the selection alone.
     */
    method FetchEvents(outcome: FetchOutcome)
      requires Valid()
      modifies this`events, this`publishedEvents, this`skipAutoSave, this`pendingSkipClears,
               this`selectedEvent, this`adminPredictions, this`adminComments, this`autoSaveTimer
      ensures Valid()
      ensures events == (if outcome.Fetched? then PendingOf(outcome.data) else [])
      ensures publishedEvents == (if outcome.Fetched? then VisiblePublished(outcome.data) else [])
      ensures outcome.FetchFailed? || old(selectedEvent).None? ==>
                selectedEvent == old(selectedEvent) && adminPredictions == old(adminPredictions)
                && adminComments == old(adminComments) && autoSaveTimer == old(autoSaveTimer)
                && skipAutoSave == old(skipAutoSave) && pendingSkipClears == old(pendingSkipClears)
      ensures Reselected(outcome, old(selectedEvent)).Some? ==>
                var e := Reselected(outcome, old(selectedEvent)).value;
                selectedEvent == Some(e) && adminPredictions == LoadDraft(e) && adminComments == e.adminComments
                && skipAutoSave && pendingSkipClears == old(pendingSkipClears) + 1 && autoSaveTimer == None
      ensures outcome.Fetched? && old(selectedEvent).Some? && Reselected(outcome, old(selectedEvent)).None? ==>
                selectedEvent == None && adminPredictions == [] && adminComments == old(adminComments)
                && skipAutoSave == old(skipAutoSave) && pendingSkipClears == old(pendingSkipClears)
                && autoSaveTimer == None
    {
      match outcome
      case FetchFailed =>
        events := [];
        publishedEvents := [];
      case Fetched(d) =>
        events := PendingOf(d);
        publishedEvents := VisiblePublished(d);
        if selectedEvent.Some? {
          match Lookup(PendingOf(d), PublishedOf(d), selectedEvent.value.id)
          case Some(updated) =>
            Open(updated);
          case None =>
            selectedEvent := None;
            adminPredictions := [];
            AutoSaveEffect();
        }
    }

    /** `updateMatchPrediction`: rewrite one record of the draft. */
    method UpdateMatchPrediction(index: nat, field: string, v: FieldValue)
      requires Valid()
      requires index < |adminPredictions|
      modifies this`adminPredictions, this`autoSaveTimer
      ensures Valid()
      ensures adminPredictions == old(adminPredictions)[index := EditRecord(old(adminPredictions)[index], field, v)]
      ensures autoSaveTimer == EffectTimer()
    {
      adminPredictions := adminPredictions[index := EditRecord(adminPredictions[index], field, v)];
      AutoSaveEffect();
    }

    /** `removeMatch`: drop one record, never the last one. */
    method RemoveMatch(index: int)
      requires Valid()
      modifies this`adminPredictions, this`autoSaveTimer
      ensures Valid()
      ensures old(|adminPredictions|) <= 1 ==>
                adminPredictions == old(adminPredictions) && autoSaveTimer == old(autoSaveTimer)
      ensures old(|adminPredictions|) > 1 ==>
                adminPredictions == DropIndex(old(adminPredictions), index) && autoSaveTimer == EffectTimer()
      ensures old(|adminPredictions|) > 0 ==> |adminPredictions| > 0
    {
      if |adminPredictions| > 1 {
        adminPredictions := DropIndex(adminPredictions, index);
        AutoSaveEffect();
      }
    }

    /**
     * `resetToAiPredictions`: reload the draft from the selected event as it
     * was when opened; unlike a load this runs the auto-save effect, which
     * schedules a save unless the skip flag is still raised.
     */
    method ResetToAiPredictions()
      requires Valid()
      modifies this`adminPredictions, this`autoSaveTimer
      ensures Valid()
      ensures old(selectedEvent).None? ==>
                adminPredictions == old(adminPredictions) && autoSaveTimer == old(autoSaveTimer)
      ensures old(selectedEvent).Some? ==>
                adminPredictions == LoadDraft(selectedEvent.value) && autoSaveTimer == EffectTimer()
    {
      if selectedEvent.Some? {
        adminPredictions := LoadDraft(selectedEvent.value);
        AutoSaveEffect();
      }
    }

    /** The comments textarea: React skips the effect when the text is unchanged. */
    method EditComments(c: string)
      requires Valid()
      modifies this`adminComments, this`autoSaveTimer
      ensures Valid()
      ensures adminComments == c
      ensures c == old(adminComments) ==> autoSaveTimer == old(autoSaveTimer)
      ensures c != old(adminComments) ==> autoSaveTimer == EffectTimer()
    {
      if c != adminComments {
        adminComments := c;
        AutoSaveEffect();
      }
    }

    /**
     * The 700 ms auto-save callback: it writes the normalised draft it
     * captured, unapproved, and on success stores that draft and its total in
     * the cached event with the same id.
     */
    method Fire(writeOk: bool)
      requires Valid()
      modifies this`writes, this`events, this`autoSaveTimer
      ensures Valid()
      ensures old(autoSaveTimer).None? ==>
                writes == old(writes) && events == old(events) && autoSaveTimer == None
      ensures old(autoSaveTimer).Some? ==>
                var job := old(autoSaveTimer).value;
                writes == old(writes) + [ReviewPayload(job.eventId, NormalizePredictions(job.predictions), job.comments, false)]
                && events == (if writeOk then ApplySaved(old(events), job.eventId, NormalizePredictions(job.predictions))
                              else old(events))
                && autoSaveTimer == None
    {
      if autoSaveTimer.Some? {
        var job := autoSaveTimer.value;
        var normalized := NormalizePredictions(job.predictions);
        writes := writes + [ReviewPayload(job.eventId, normalized, job.comments, false)];
        if writeOk {
          events := ApplySaved(events, job.eventId, normalized);
        }
        autoSaveTimer := None;
      }
    }

    /**
     * `saveReview`: write the normalised draft with the approval flag; once
     * the write succeeds, re-fetch and then close the event. A failed write
     * changes nothing else.
     */
    method SaveReview(approved: bool, writeOk: bool, refetch: FetchOutcome)
      requires Valid()
      modifies this`writes, this`events, this`publishedEvents, this`skipAutoSave, this`pendingSkipClears,
               this`selectedEvent, this`adminPredictions, this`adminComments, this`autoSaveTimer
      ensures Valid()
      ensures old(selectedEvent).None? ==>
                writes == old(writes) && events == old(events) && publishedEvents == old(publishedEvents)
                && selectedEvent == None && adminPredictions == old(adminPredictions)
                && adminComments == old(adminComments) && autoSaveTimer == old(autoSaveTimer)
                && skipAutoSave == old(skipAutoSave) && pendingSkipClears == old(pendingSkipClears)
      ensures old(selectedEvent).Some? ==>
                writes == old(writes) + [ReviewPayload(old(selectedEvent).value.id,
                                                       NormalizePredictions(old(adminPredictions)),
                                                       old(adminComments), approved)]
      ensures old(selectedEvent).Some? && !writeOk ==>
                events == old(events) && publishedEvents == old(publishedEvents)
                && selectedEvent == old(selectedEvent) && adminPredictions == old(adminPredictions)
                && adminComments == old(adminComments) && autoSaveTimer == old(autoSaveTimer)
                && skipAutoSave == old(skipAutoSave) && pendingSkipClears == old(pendingSkipClears)
      ensures old(selectedEvent).Some? && writeOk ==>
                events == (if refetch.Fetched? then PendingOf(refetch.data) else [])
                && publishedEvents == (if refetch.Fetched? then VisiblePublished(refetch.data) else [])
                && selectedEvent == None && adminPredictions == [] && adminComments == ""
                && autoSaveTimer == None
                && skipAutoSave == (old(skipAutoSave) || Reselected(refetch, old(selectedEvent)).Some?)
                && pendingSkipClears == old(pendingSkipClears)
                                        + (if Reselected(refetch, old(selectedEvent)).Some? then 1 else 0)
    {
      if selectedEvent.Some? {
        writes := writes + [ReviewPayload(selectedEvent.value.id, NormalizePredictions(adminPredictions), adminComments, approved)];
        if writeOk {
          CloseAfterSave(refetch);
        }
      }
    }

    /** The tail of a successful `saveReview`: re-fetch, then close the event. */
    method CloseAfterSave(refetch: FetchOutcome)
      requires Valid()
      modifies this`events, this`publishedEvents, this`skipAutoSave, this`pendingSkipClears,
               this`selectedEvent, this`adminPredictions, this`adminComments, this`autoSaveTimer
      ensures Valid()
      ensures events == (if refetch.Fetched? then PendingOf(refetch.data) else [])
      ensures publishedEvents == (if refetch.Fetched? then VisiblePublished(refetch.data) else [])
      ensures selectedEvent == None && adminPredictions == [] && adminComments == "" && autoSaveTimer == None
      ensures skipAutoSave == (old(skipAutoSave) || Reselected(refetch, old(selectedEvent)).Some?)
      ensures pendingSkipClears == old(pendingSkipClears) + (if Reselected(refetch, old(selectedEvent)).Some? then 1 else 0)
    {
      FetchEvents(refetch);
      selectedEvent := None;
      adminComments := "";
      adminPredictions := [];
      AutoSaveEffect();
    }

    /** `getCurrentMatches`: the on-screen draft for the open event, else the stored draft, else the AI selection. */
    function CurrentMatches(e: DailyEvent): (r: seq<Match>)
      reads this
      ensures selectedEvent.Some? && selectedEvent.value.id == e.id && adminPredictions != [] ==> r == adminPredictions
      ensures !(selectedEvent.Some? && selectedEvent.value.id == e.id && adminPredictions != []) ==>
                r == LoadDraft(e)
    {
      if selectedEvent.Some? && selectedEvent.value.id == e.id && |adminPredictions| > 0 then adminPredictions
      else if e.adminPredictions.Some? && |e.adminPredictions.value| > 0 then e.adminPredictions.value
      else AiSelection(e)
    }

    /** `getCurrentTotalOdds` */
    function CurrentTotalOdds(e: DailyEvent): Num
      reads this
    {
      var matches := CurrentMatches(e);
      if |matches| > 0 then TotalOdds(matches) else AiTotalOdds(e)
    }

    /** `getCurrentMatchCount` */
    function CurrentMatchCount(e: DailyEvent): nat
      reads this
    {
      var matches := CurrentMatches(e);
      if |matches| > 0 then |matches| else AiMatchCount(e)
    }

    /**
     * The fallbacks of the two summaries agree with the list they summarise:
     * the count is the size of the current list, and the total is its product,
     * falling back to the cached `totalOdds ?? 1` only when that list is empty.
     */
    lemma CurrentSummaries(e: DailyEvent)
      ensures CurrentMatchCount(e) == |CurrentMatches(e)|
      ensures CurrentTotalOdds(e) ==
                if CurrentMatches(e) == [] then e.totalOdds.GetOr(Finite(1.0)) else TotalOdds(CurrentMatches(e))
      ensures CurrentMatches(e) == [] <==>
                !(selectedEvent.Some? && selectedEvent.value.id == e.id && adminPredictions != [])
                && (e.adminPredictions.None? || e.adminPredictions.value == []) && e.matches == []
    {
      LoadDraftEmptyIff(e);
      AiSelectionRule(e);
      AiMatchCountIsSelectionSize(e);
    }
  }

  /**
   * Opening an event schedules nothing, and an edit made before the queued
   * zero-delay callback has run schedules nothing either: no write follows.
   */
  method LoadDoesNotSave(e: DailyEvent, field: string, v: FieldValue) returns (sent: seq<ReviewPayload>)
    requires |LoadDraft(e)| > 0
    ensures sent == []
  {
    var page := new ReviewPage();
    page.SelectEvent(e);
    page.UpdateMatchPrediction(0, field, v);
    page.Fire(true);
    sent := page.writes;
  }

  /** Writing a field twice keeps only the second value when the field is not `odds`. */
  lemma EditOverwrites(m: Match, field: string, v1: FieldValue, v2: FieldValue)
    requires field != "odds"
    ensures EditRecord(EditRecord(m, field, v1), field, v2) == EditRecord(m, field, v2)
  {
  }

  /** The draft after typing `value` into the first record's `prediction`. */
  function TypedFirst(draft: seq<Match>, value: string): seq<Match>
    requires |draft| > 0
  {
    draft[0 := EditRecord(draft[0], "prediction", Text(value))]
  }

  lemma TypedFirstTwice(draft: seq<Match>, v1: string, v2: string)
    requires |draft| > 0
    ensures var d1 := TypedFirst(draft, v1);
            d1[0 := EditRecord(d1[0], "prediction", Text(v2))] == TypedFirst(draft, v2)
  {
    EditOverwrites(draft[0], "prediction", Text(v1), Text(v2));
  }

  /** A fresh page with `e` opened and the queued skip-clear run: the load has settled. */
  method OpenSettled(e: DailyEvent) returns (page: ReviewPage)
    ensures fresh(page) && page.Valid()
    ensures page.selectedEvent == Some(e) && page.adminPredictions == LoadDraft(e)
    ensures page.adminComments == e.adminComments
    ensures !page.skipAutoSave && page.autoSaveTimer == None && page.writes == []
  {
    page := new ReviewPage();
    page.SelectEvent(e);
    page.Tick();
  }

  /** Type each of `values` in turn into the first record's `prediction`. */
  method TypeIntoFirst(page: ReviewPage, values: seq<string>)
    requires page.Valid() && |page.adminPredictions| > 0 && |values| > 0
    modifies page`adminPredictions, page`autoSaveTimer
    ensures page.Valid()
    ensures page.adminPredictions == TypedFirst(old(page.adminPredictions), values[|values| - 1])
    ensures page.autoSaveTimer == page.EffectTimer()
  {
    ghost var draft := page.adminPredictions;
    page.UpdateMatchPrediction(0, "prediction", Text(values[0]));
    var i := 1;
    while i < |values|
      invariant 1 <= i <= |values|
      invariant page.Valid()
      invariant page.adminPredictions == TypedFirst(draft, values[i - 1])
      invariant page.autoSaveTimer == page.EffectTimer()
    {
      TypedFirstTwice(draft, values[i - 1], values[i]);
      page.UpdateMatchPrediction(0, "prediction", Text(values[i]));
      i := i + 1;
    }
  }

  /**
   * Debounce: after the load settles, any number of edits to one record's
   * `prediction` followed by the timer firing issue exactly one write, carrying
   * the last value typed.
   */
  method EditsCoalesce(e: DailyEvent, values: seq<string>) returns (sent: seq<ReviewPayload>)
    requires |LoadDraft(e)| > 0 && |values| > 0
    ensures sent == [ReviewPayload(e.id, NormalizePredictions(TypedFirst(LoadDraft(e), values[|values| - 1])),
                                   e.adminComments, false)]
  {
    var page := OpenSettled(e);
    TypeIntoFirst(page, values);
    var last := TypedFirst(LoadDraft(e), values[|values| - 1]);
    assert page.autoSaveTimer == Some(AutoSaveJob(e.id, last, e.adminComments));
    page.Fire(true);
    sent := page.writes;
  }

  /**
   * A re-fetch that re-selects the open event cancels the auto-save pending for
   * it: the timer is gone and the next firing writes nothing.
   */
  method ReselectCancelsPendingSave(e: DailyEvent, v: string, d: QueueResponse) returns (sent: seq<ReviewPayload>)
    requires |LoadDraft(e)| > 0
    requires FindById(PendingOf(d), e.id).Some?
    ensures sent == []
  {
    var page := OpenSettled(e);
    page.UpdateMatchPrediction(0, "prediction", Text(v));
    assert page.autoSaveTimer.Some? && page.writes == [];
    assert Reselected(Fetched(d), Some(e)).Some?;
    page.FetchEvents(Fetched(d));
    assert page.autoSaveTimer == None && page.writes == [];
    page.Fire(true);
    sent := page.writes;
  }
}
