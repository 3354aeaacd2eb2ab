/**
 * The pure helpers of the admin review page (src/pages/admin/review/page.tsx):
 * the records and events it works on, the AI auto-selection rule, the draft a
 * load starts from, the odds product, the normaliser applied before every
 * write, the single-field edit, the server-list reconciliation lookup and the
 * local update after an auto-save.
 */
module AdminReview {
  import opened Wrappers
  import opened JsValues
  import opened Sequences

  /** A prediction record (`Match`): its properties by name. */
  type Match = map<string, JsVal>

  /** `m.key`, `undefined` when the property is absent. */
  function Field(m: Match, key: string): JsVal {
    if key in m then m[key] else Undefined
  }

  /** A `DailyEvent` as the review endpoint returns it. */
  datatype DailyEvent = DailyEvent(
    id: string,
    /** "" when absent */
    status: string,
    /** "" when absent or null */
    result: string,
    matches: seq<Match>,
    /** None when absent or not an array */
    aiPredictions: Option<seq<Match>>,
    /** None when absent */
    adminPredictions: Option<seq<Match>>,
    /** "" when absent */
    adminComments: string,
    /** None when null or absent */
    totalOdds: Option<Num>,
    /** date, sport, createdAt and the other properties the page only displays */
    other: map<string, JsVal>)

  // ---------------------------------------------------------------------------
  // AI auto-selection and the draft a load starts from

  predicate IsAutoSelected(m: Match) {
    Truthy(Field(m, "autoSelected"))
  }

  function AutoSelected(ms: seq<Match>): seq<Match> {
    Filter(IsAutoSelected, ms)
  }

  predicate AnyAutoSelected(ms: seq<Match>) {
    exists i :: 0 <= i < |ms| && IsAutoSelected(ms[i])
  }

  /** `getAiSelectionMatches` */
  function AiSelection(e: DailyEvent): seq<Match> {
    if |e.matches| == 0 then []
    else if |AutoSelected(e.matches)| > 0 then AutoSelected(e.matches)
    else if e.aiPredictions.Some? && |e.aiPredictions.value| > 0
         && |AutoSelected(e.aiPredictions.value)| > 0 then AutoSelected(e.aiPredictions.value)
    else e.matches
  }

  /**
   * The AI selection is empty exactly when the event has no matches (even when
   * aiPredictions holds auto-selected records); otherwise it is exactly the
   * auto-selected matches if there are any, in `matches`' order, else exactly
   * the auto-selected AI predictions if there are any, in `aiPredictions`'
   * order, else all matches.
   */
  lemma AiSelectionRule(e: DailyEvent)
    ensures AiSelection(e) == [] <==> e.matches == []
    ensures IsSubseq(AiSelection(e), e.matches)
            || (e.aiPredictions.Some? && IsSubseq(AiSelection(e), e.aiPredictions.value))
    ensures e.matches != [] && AnyAutoSelected(e.matches) ==>
              forall m :: multiset(AiSelection(e))[m] == if IsAutoSelected(m) then multiset(e.matches)[m] else 0
    ensures e.matches != [] && AnyAutoSelected(e.matches) ==> IsSubseq(AiSelection(e), e.matches)
    ensures e.matches != [] && !AnyAutoSelected(e.matches) && e.aiPredictions.Some?
            && AnyAutoSelected(e.aiPredictions.value) ==>
              forall m :: multiset(AiSelection(e))[m]
                          == if IsAutoSelected(m) then multiset(e.aiPredictions.value)[m] else 0
    ensures e.matches != [] && !AnyAutoSelected(e.matches) && e.aiPredictions.Some?
            && AnyAutoSelected(e.aiPredictions.value) ==>
              IsSubseq(AiSelection(e), e.aiPredictions.value)
    ensures !(e.aiPredictions.Some? && AnyAutoSelected(e.aiPredictions.value)) && !AnyAutoSelected(e.matches)
            ==> AiSelection(e) == e.matches
  {
    FilterEmptyIff(IsAutoSelected, e.matches);
    FilterIsSubseq(IsAutoSelected, e.matches);
    SubseqReflexive(e.matches);
    forall m ensures multiset(AutoSelected(e.matches))[m] == if IsAutoSelected(m) then multiset(e.matches)[m] else 0 {
      FilterCount(IsAutoSelected, e.matches, m);
    }
    if e.aiPredictions.Some? {
      var ai := e.aiPredictions.value;
      FilterEmptyIff(IsAutoSelected, ai);
      FilterIsSubseq(IsAutoSelected, ai);
      forall m ensures multiset(AutoSelected(ai))[m] == if IsAutoSelected(m) then multiset(ai)[m] else 0 {
        FilterCount(IsAutoSelected, ai, m);
      }
    }
  }

  /** The draft every load starts from: the stored admin draft if non-empty, else the AI selection. */
  function LoadDraft(e: DailyEvent): seq<Match> {
    if e.adminPredictions.Some? && |e.adminPredictions.value| > 0 then e.adminPredictions.value
    else AiSelection(e)
  }

  /** A load gives an empty draft exactly when the event has neither an admin draft nor matches. */
  lemma LoadDraftEmptyIff(e: DailyEvent)
    ensures LoadDraft(e) == [] <==> (e.adminPredictions.None? || e.adminPredictions.value == []) && e.matches == []
  {
    AiSelectionRule(e);
  }

  // ---------------------------------------------------------------------------
  // Total odds

  /** A record's factor in the product: `odds` if a number, else `predictedOdds` if a number, else 1. */
  function OddsFactor(m: Match): Num {
    var odds := Field(m, "odds");
    var predicted := Field(m, "predictedOdds");
    if odds.Number? then odds.n else if predicted.Number? then predicted.n else Finite(1.0)
  }

  /** `calculateTotalOdds`: `reduce` from 1, multiplying in each factor from the left. */
  function TotalOdds(ms: seq<Match>): Num
    decreases |ms|
  {
    if ms == [] then Finite(1.0) else Mul(TotalOdds(ms[..|ms| - 1]), OddsFactor(ms[|ms| - 1]))
  }

  /** Appending a record multiplies the total by its factor. */
  lemma TotalOddsSnoc(ms: seq<Match>, m: Match)
    ensures TotalOdds(ms + [m]) == Mul(TotalOdds(ms), OddsFactor(m))
  {
    assert (ms + [m])[..|ms|] == ms;
  }

  /** The total of a concatenation is the product of the totals. */
  lemma {:induction false} TotalOddsAppend(xs: seq<Match>, ys: seq<Match>)
    ensures TotalOdds(xs + ys) == Mul(TotalOdds(xs), TotalOdds(ys))
    decreases |ys|
  {
    if ys == [] {
      assert xs + ys == xs;
      MulOne(TotalOdds(xs));
    } else {
      var init, last := ys[..|ys| - 1], ys[|ys| - 1];
      assert xs + ys == (xs + init) + [last];
      TotalOddsSnoc(xs + init, last);
      TotalOddsAppend(xs, init);
      MulAssociates(TotalOdds(xs), TotalOdds(init), OddsFactor(last));
    }
  }

  /** The total does not depend on the order of the records. */
  lemma {:induction false} TotalOddsPermutation(xs: seq<Match>, ys: seq<Match>)
    requires multiset(xs) == multiset(ys)
    ensures TotalOdds(xs) == TotalOdds(ys)
    decreases |xs|
  {
    if xs != [] {
      var init, last := xs[..|xs| - 1], xs[|xs| - 1];
      assert xs == init + [last];
      assert last in multiset(ys);
      var j :| 0 <= j < |ys| && ys[j] == last;
      var before, after := ys[..j], ys[j + 1..];
      RemoveOne(init, last, ys, j);
      TotalOddsPermutation(init, before + after);
      TotalOddsMoveLast(before, last, after);
    }
  }

  lemma RemoveOne(init: seq<Match>, last: Match, ys: seq<Match>, j: int)
    requires 0 <= j < |ys| && ys[j] == last && multiset(init + [last]) == multiset(ys)
    ensures ys == ys[..j] + [last] + ys[j + 1..]
    ensures multiset(init) == multiset(ys[..j] + ys[j + 1..])
  {
    var before, after := ys[..j], ys[j + 1..];
    assert ys == before + [last] + after;
    assert multiset(ys) == multiset(before) + multiset{last} + multiset(after);
    assert multiset(before + after) == multiset(before) + multiset(after);
    assert multiset(init + [last]) == multiset(init) + multiset{last};
    assert multiset(init) == multiset(ys) - multiset{last};
  }

  /** Moving a record to the end of the list leaves the total unchanged. */
  lemma TotalOddsMoveLast(before: seq<Match>, last: Match, after: seq<Match>)
    ensures TotalOdds(before + [last] + after) == Mul(TotalOdds(before + after), OddsFactor(last))
  {
    TotalOddsAppend(before, after);
    TotalOddsAppend(before + [last], after);
    TotalOddsSnoc(before, last);
    MulAssociates(TotalOdds(before), OddsFactor(last), TotalOdds(after));
    MulCommutes(OddsFactor(last), TotalOdds(after));
    MulAssociates(TotalOdds(before), TotalOdds(after), OddsFactor(last));
  }


  /** The factor each record contributes, in order. */
  function Factors(ms: seq<Match>): seq<Num> {
    seq(|ms|, i requires 0 <= i < |ms| => OddsFactor(ms[i]))
  }

  /** `calculateTotalOdds` is the generic left fold of multiplication over the factors. */
  lemma {:induction false} TotalOddsIsFold(ms: seq<Match>)
    ensures TotalOdds(ms) == MulAll(Factors(ms))
    decreases |ms|
  {
    if ms != [] {
      var init := ms[..|ms| - 1];
      TotalOddsIsFold(init);
      assert Factors(ms)[..|ms| - 1] == Factors(init);
    }
  }

  /** When every factor is a finite number the total is their ordinary product. */
  lemma TotalOddsIsProduct(ms: seq<Match>)
    requires AllFinite(Factors(ms))
    ensures TotalOdds(ms) == Finite(RealProduct(Factors(ms)))
  {
    TotalOddsIsFold(ms);
    MulAllIsProduct(Factors(ms));
  }

  lemma TotalOddsSingle(m: Match)
    ensures TotalOdds([m]) == OddsFactor(m)
  {
    assert [m][..0] == [];
    MulOne(OddsFactor(m));
  }

  /** Peeling off the first record: the total is its factor times the total of the rest. */
  lemma TotalOddsCons(ms: seq<Match>)
    requires ms != []
    ensures TotalOdds(ms) == Mul(OddsFactor(ms[0]), TotalOdds(ms[1..]))
  {
    assert [ms[0]] + ms[1..] == ms;
    TotalOddsAppend([ms[0]], ms[1..]);
    TotalOddsSingle(ms[0]);
  }

  /** The worked example: `[{odds: 1.5}, {predictedOdds: 2.0}, {}]` totals 3. */
  lemma TotalOddsExample()
    ensures TotalOdds([map["odds" := Number(Finite(1.5))], map["predictedOdds" := Number(Finite(2.0))], map[]])
            == Finite(3.0)
  {
    var a: Match := map["odds" := Number(Finite(1.5))];
    var b: Match := map["predictedOdds" := Number(Finite(2.0))];
    var c: Match := map[];
    assert OddsFactor(a) == Finite(1.5);
    assert OddsFactor(b) == Finite(2.0);
    assert OddsFactor(c) == Finite(1.0);
    TotalOddsOfThree([a, b, c]);
  }

  lemma TotalOddsOfThree(ms: seq<Match>)
    requires |ms| == 3
    ensures TotalOdds(ms) == Mul(Mul(OddsFactor(ms[0]), OddsFactor(ms[1])), OddsFactor(ms[2]))
  {
    var two := ms[..2];
    var one := two[..1];
    assert one[..0] == [];
    assert one[0] == ms[0] && two[1] == ms[1];
    MulOne(OddsFactor(ms[0]));
    assert TotalOdds(one) == OddsFactor(ms[0]);
    assert TotalOdds(two) == Mul(OddsFactor(ms[0]), OddsFactor(ms[1]));
  }

  /** `getAiTotalOdds` */
  function AiTotalOdds(e: DailyEvent): Num {
    var selection := AiSelection(e);
    if |selection| > 0 then TotalOdds(selection) else e.totalOdds.GetOr(Finite(1.0))
  }

  /** The cached `totalOdds ?? 1` is used exactly when the event has no matches. */
  lemma AiTotalOddsFallback(e: DailyEvent)
    ensures AiTotalOdds(e) == if e.matches == [] then e.totalOdds.GetOr(Finite(1.0)) else TotalOdds(AiSelection(e))
  {
    AiSelectionRule(e);
  }

  /** `getAiMatchCount`: `selection.length || event.matches.length || 0` */
  function AiMatchCount(e: DailyEvent): nat {
    var selection := AiSelection(e);
    if |selection| > 0 then |selection| else if |e.matches| > 0 then |e.matches| else 0
  }

  /** The two fallbacks in `getAiMatchCount` never change the answer: it is the size of the AI selection. */
  lemma AiMatchCountIsSelectionSize(e: DailyEvent)
    ensures AiMatchCount(e) == |AiSelection(e)|
  {
    AiSelectionRule(e);
  }

  // ---------------------------------------------------------------------------
  // Normalisation before a write

  /** `match && match.homeTeam && match.awayTeam` */
  predicate HasTeams(m: Match) {
    Truthy(Field(m, "homeTeam")) && Truthy(Field(m, "awayTeam"))
  }

  /** `typeof odds === 'number' ? odds : typeof predictedOdds === 'number' ? predictedOdds : null` */
  function PreferredOdds(m: Match): Option<Num> {
    var odds := Field(m, "odds");
    var predicted := Field(m, "predictedOdds");
    if odds.Number? then Some(odds.n) else if predicted.Number? then Some(predicted.n) else None
  }

  /** A number field's own rounding when it is a number, else null. */
  function OwnRounded(v: JsVal): JsVal {
    if v.Number? then Number(RoundNum(v.n)) else Null
  }

  /** The properties of a record other than its two odds fields. */
  function WithoutOdds(m: Match): map<string, JsVal> {
    m - {"odds", "predictedOdds"}
  }

  /** Two records that agree outside the odds fields agree on every other property. */
  lemma FieldOutsideOdds(a: Match, b: Match, k: string)
    requires WithoutOdds(a) == WithoutOdds(b)
    requires k != "odds" && k != "predictedOdds"
    ensures Field(a, k) == Field(b, k)
  {
    assert k in a <==> k in WithoutOdds(a);
    assert k in b <==> k in WithoutOdds(b);
    if k in a { assert a[k] == WithoutOdds(a)[k]; }
    if k in b { assert b[k] == WithoutOdds(b)[k]; }
  }

  /** One record of `normalizePredictions`. */
  function NormalizeRecord(m: Match): (r: Match)
    ensures WithoutOdds(r) == WithoutOdds(m)
    ensures "odds" in r && "predictedOdds" in r
    ensures PreferredOdds(m).Some? && PreferredOdds(m).value.Finite? ==>
              r["odds"] == r["predictedOdds"] == Number(Finite(Round4(PreferredOdds(m).value.r)))
    ensures !(PreferredOdds(m).Some? && PreferredOdds(m).value.Finite?) ==>
              r["odds"] == OwnRounded(Field(m, "odds")) && r["predictedOdds"] == OwnRounded(Field(m, "predictedOdds"))
    ensures r["odds"].Number? || r["odds"] == Null
    ensures r["predictedOdds"].Number? || r["predictedOdds"] == Null
  {
    var preferred := PreferredOdds(m);
    if preferred.Some? && preferred.value.Finite? then
      var safe := Number(Finite(Round4(preferred.value.r)));
      m["odds" := safe]["predictedOdds" := safe]
    else
      m["odds" := OwnRounded(Field(m, "odds"))]["predictedOdds" := OwnRounded(Field(m, "predictedOdds"))]
  }

  /** `normalizePredictions`: drop records without both team names, then normalise the odds of the rest. */
  function NormalizePredictions(ms: seq<Match>): (r: seq<Match>)
    ensures |r| == |Filter(HasTeams, ms)|
    ensures forall i :: 0 <= i < |r| ==>
              HasTeams(r[i]) && WithoutOdds(r[i]) == WithoutOdds(Filter(HasTeams, ms)[i])
    ensures forall i :: 0 <= i < |r| ==> r[i] == NormalizeRecord(Filter(HasTeams, ms)[i])
  {
    var kept := Filter(HasTeams, ms);
    var r := seq(|kept|, i requires 0 <= i < |kept| => NormalizeRecord(kept[i]));
    assert forall i :: 0 <= i < |r| ==> HasTeams(r[i]) by {
      forall i | 0 <= i < |r| ensures HasTeams(r[i]) {
        assert kept[i] in kept;
        FieldOutsideOdds(r[i], kept[i], "homeTeam");
        FieldOutsideOdds(r[i], kept[i], "awayTeam");
      }
    }
    r
  }

  /** Normalising a normalised record changes nothing. */
  lemma NormalizeRecordIdempotent(m: Match)
    ensures NormalizeRecord(NormalizeRecord(m)) == NormalizeRecord(m)
  {
    var r := NormalizeRecord(m);
    var rr := NormalizeRecord(r);
    var preferred := PreferredOdds(m);
    if preferred.Some? && preferred.value.Finite? {
      Round4Idempotent(preferred.value.r);
    } else {
      var o, p := Field(m, "odds"), Field(m, "predictedOdds");
      if o.Number? { RoundNumIdempotent(o.n); }
      if p.Number? { RoundNumIdempotent(p.n); }
    }
    assert WithoutOdds(rr) == WithoutOdds(r);
    assert rr.Keys == r.Keys;
  }

  /** `normalize(normalize(R)) == normalize(R)` */
  lemma NormalizeIdempotent(ms: seq<Match>)
    ensures NormalizePredictions(NormalizePredictions(ms)) == NormalizePredictions(ms)
  {
    var r := NormalizePredictions(ms);
    FilterAll(HasTeams, r);
    forall i | 0 <= i < |r| ensures NormalizeRecord(r[i]) == r[i] {
      NormalizeRecordIdempotent(Filter(HasTeams, ms)[i]);
    }
  }

  // ---------------------------------------------------------------------------
  // Editing one field

  /** The value an input hands to `updateMatchPrediction`: a string or a number. */
  datatype FieldValue = Text(s: string) | Numeric(n: Num)

  function ToJs(v: FieldValue): JsVal {
    match v
    case Text(s) => Str(s)
    case Numeric(n) => Number(n)
  }

  /** `typeof value === 'number' ? value : parseFloat(value)` */
  function NumericValue(v: FieldValue): Num {
    match v
    case Numeric(n) => n
    case Text(s) => ParseFloat(s)
  }

  /**
   * The record `updateMatchPrediction` writes back: `field` takes the raw value;
   * an odds edit whose value is a number other than NaN then writes its
   * four-decimal rounding into both odds fields.
   */
  function EditRecord(m: Match, field: string, v: FieldValue): (r: Match)
    ensures forall k :: k != field && k != "predictedOdds" ==> Field(r, k) == Field(m, k)
    ensures field != "odds" ==> Field(r, field) == ToJs(v)
    ensures field != "odds" && field != "predictedOdds" ==> Field(r, "predictedOdds") == Field(m, "predictedOdds")
    ensures field == "odds" && !NumericValue(v).NaN? ==>
              Field(r, "odds") == Field(r, "predictedOdds") == Number(RoundNum(NumericValue(v)))
    ensures field == "odds" && NumericValue(v).NaN? ==>
              Field(r, "odds") == ToJs(v) && Field(r, "predictedOdds") == Field(m, "predictedOdds")
  {
    var next := m[field := ToJs(v)];
    if field == "odds" && !NumericValue(v).NaN? then
      var rounded := Number(RoundNum(NumericValue(v)));
      next["predictedOdds" := rounded]["odds" := rounded]
    else next
  }

  /** After an odds edit that parsed, both odds fields agree and already sit on the four-decimal grid. */
  lemma OddsEditKeepsFieldsEqual(m: Match, v: FieldValue)
    requires !NumericValue(v).NaN?
    ensures Field(EditRecord(m, "odds", v), "odds") == Field(EditRecord(m, "odds", v), "predictedOdds")
    ensures OddsFactor(EditRecord(m, "odds", v)) == RoundNum(NumericValue(v))
    ensures RoundNum(OddsFactor(EditRecord(m, "odds", v))) == OddsFactor(EditRecord(m, "odds", v))
  {
    RoundNumIdempotent(NumericValue(v));
  }

  // ---------------------------------------------------------------------------
  // Removing a record

  /** `prev.filter((_, idx) => idx !== index)` */
  function DropIndex(xs: seq<Match>, index: int): (r: seq<Match>)
    ensures 0 <= index < |xs| ==> |r| == |xs| - 1
    ensures 0 <= index < |xs| ==> forall j :: 0 <= j < index ==> r[j] == xs[j]
    ensures 0 <= index < |xs| ==> forall j :: index <= j < |r| ==> r[j] == xs[j + 1]
    ensures 0 <= index < |xs| ==> multiset(r) + multiset{xs[index]} == multiset(xs)
    ensures !(0 <= index < |xs|) ==> r == xs
  {
    if 0 <= index < |xs| then
      assert xs == xs[..index] + [xs[index]] + xs[index + 1..];
      xs[..index] + xs[index + 1..]
    else xs
  }

  // ---------------------------------------------------------------------------
  // Reconciling against a fresh fetch

  /** The index of the first event with the given id, or the length when there is none. */
  function FindIndex(es: seq<DailyEvent>, id: string): (k: nat)
    ensures k <= |es|
    ensures forall j :: 0 <= j < k ==> es[j].id != id
    ensures k < |es| ==> es[k].id == id
    decreases |es|
  {
    if es == [] then 0 else if es[0].id == id then 0 else 1 + FindIndex(es[1..], id)
  }

  /** `es.find((event) => event.id === id)` */
  function FindById(es: seq<DailyEvent>, id: string): Option<DailyEvent> {
    var k := FindIndex(es, id);
    if k < |es| then Some(es[k]) else None
  }

  /**
   * The reconcile lookup: the first event with the id in `pending`, else the
   * first in the whole `published` list (not only its reviewable part).
   */
  function Lookup(pending: seq<DailyEvent>, published: seq<DailyEvent>, id: string): (r: Option<DailyEvent>)
    ensures r.Some? ==> r.value.id == id && (r.value in pending || r.value in published)
    ensures r.None? <==> (forall e :: e in pending ==> e.id != id) && (forall e :: e in published ==> e.id != id)
    ensures (exists e :: e in pending && e.id == id) ==> r.Some? && r.value in pending
    ensures (exists e :: e in pending && e.id == id) ==> r == Some(pending[FindIndex(pending, id)])
    ensures r.Some? && r.value in published && (forall e :: e in pending ==> e.id != id) ==>
              r.value == published[FindIndex(published, id)]
  {
    match FindById(pending, id)
    case Some(e) => Some(e)
    case None => FindById(published, id)
  }

  /** The payload of `getAdminPendingEvents`, by the shapes the page tells apart. */
  datatype QueueResponse =
    | EventArray(items: seq<DailyEvent>)
      /** an object; a field is None when it is absent or not an array */
    | QueueObject(pending: Option<seq<DailyEvent>>, events: Option<seq<DailyEvent>>, published: Option<seq<DailyEvent>>)
      /** null, a number, a string or a boolean */
    | OtherValue

  /** What `getAdminPendingEvents` gave: a payload, or an error `fetchEvents` caught. */
  datatype FetchOutcome = Fetched(data: QueueResponse) | FetchFailed

  /** `data.pending` if an array, else `data.events` if an array, else `data` if an array, else `[]` */
  function PendingOf(d: QueueResponse): seq<DailyEvent> {
    match d
    case EventArray(items) => items
    case QueueObject(pending, events, _) =>
      if pending.Some? then pending.value else if events.Some? then events.value else []
    case OtherValue => []
  }

  /** `data.published` if an array, else `[]` */
  function PublishedOf(d: QueueResponse): seq<DailyEvent> {
    match d
    case QueueObject(_, _, published) => published.GetOr([])
    case _ => []
  }

  /** `event.status === 'PENDING' || !event.status` */
  predicate IsReviewable(e: DailyEvent) {
    e.status == "PENDING" || e.status == ""
  }

  /** The published list the page shows: only events still open for review. */
  function VisiblePublished(d: QueueResponse): (r: seq<DailyEvent>)
    ensures forall e :: e in r ==> e in PublishedOf(d) && IsReviewable(e)
    ensures forall i :: 0 <= i < |PublishedOf(d)| && IsReviewable(PublishedOf(d)[i]) ==> PublishedOf(d)[i] in r
    ensures IsSubseq(r, PublishedOf(d))
  {
    FilterIsSubseq(IsReviewable, PublishedOf(d));
    Filter(IsReviewable, PublishedOf(d))
  }

  /** Each reviewable published event is shown as often as the server sent it; nothing else is shown. */
  lemma VisiblePublishedCount(d: QueueResponse, e: DailyEvent)
    ensures multiset(VisiblePublished(d))[e] == if IsReviewable(e) then multiset(PublishedOf(d))[e] else 0
  {
    FilterCount(IsReviewable, PublishedOf(d), e);
  }

  /** A resulted event (WON, LOST, VOID, ...) never reaches the visible published list. */
  lemma ResultedEventsHidden(d: QueueResponse, e: DailyEvent)
    requires e.status != "PENDING" && e.status != ""
    ensures e !in VisiblePublished(d)
  {
  }

  /**
   * The event a fetch re-selects: None when nothing was selected, when the fetch
   * failed (the selection is then kept as it is), or when the id is in neither list.
   */
  function Reselected(outcome: FetchOutcome, selected: Option<DailyEvent>): (r: Option<DailyEvent>)
    ensures r.Some? ==> outcome.Fetched? && selected.Some? && r.value.id == selected.value.id
    ensures r.Some? ==> r.value in PendingOf(outcome.data) || r.value in PublishedOf(outcome.data)
    ensures outcome.Fetched? && selected.Some? && r.None? ==>
              (forall e :: e in PendingOf(outcome.data) ==> e.id != selected.value.id)
              && (forall e :: e in PublishedOf(outcome.data) ==> e.id != selected.value.id)
  {
    if outcome.Fetched? && selected.Some? then Lookup(PendingOf(outcome.data), PublishedOf(outcome.data), selected.value.id)
    else None
  }

  /** An event that has left the pending list for the published one is still re-selected, even once resulted. */
  lemma ReselectFromPublished(d: QueueResponse, e: DailyEvent)
    requires forall x :: x in PendingOf(d) ==> x.id != e.id
    requires FindById(PublishedOf(d), e.id) == Some(e)
    ensures Reselected(Fetched(d), Some(e)) == Some(e)
  {
  }

  // ---------------------------------------------------------------------------
  // The local update after a successful auto-save

  /**
   * `prev.map(...)`: every cached event with the id gets the saved draft and its
   * total; every other event, and every other property, is unchanged.
   */
  function ApplySaved(events: seq<DailyEvent>, id: string, saved: seq<Match>): (r: seq<DailyEvent>)
    ensures |r| == |events|
    ensures forall i :: 0 <= i < |events| && events[i].id != id ==> r[i] == events[i]
    ensures forall i :: 0 <= i < |events| && events[i].id == id ==>
              r[i].adminPredictions == Some(saved) && r[i].totalOdds == Some(TotalOdds(saved))
              && r[i].(adminPredictions := events[i].adminPredictions, totalOdds := events[i].totalOdds) == events[i]
  {
    seq(|events|, i requires 0 <= i < |events| =>
      if events[i].id == id then events[i].(adminPredictions := Some(saved), totalOdds := Some(TotalOdds(saved)))
      else events[i])
  }

  // ---------------------------------------------------------------------------
  // What the odds input hands over

  lemma ParseUnsignedPrefix()
    ensures ParseUnsigned("1.2abc") == Finite(1.2)
  {
    var u := "1.2abc";
    assert LeadingDigits(u) == 1 by { assert LeadingDigits(u[1..]) == 0; }
    assert u[2..] == "2abc";
    assert LeadingDigits(u[2..]) == 1 by { assert LeadingDigits(u[2..][1..]) == 0; }
    assert u[..1] == "1" && u[2..][..1] == "2";
    assert ExponentValue(u[2..][1..]) == 0;
    assert DecimalValue("1", "2", 0) == 1.2 by {
      assert "1" + "2" == "12";
      assert DigitsValue("12") == 12 by { assert "12"[..1] == "1"; assert "1"[..0] == []; }
      assert Pow10(-1) == 0.1;
    }
  }

  lemma ParseFloatPrefix()
    ensures NumericValue(Text("1.2abc")) == Finite(1.2)
  {
    var u := "1.2abc";
    assert !IsStrWhiteSpace(u[0]) && u[0] != '-' && u[0] != '+';
    assert SkipWhiteSpace(u) == u;
    assert ParseFloat(u) == ParseUnsigned(u);
    ParseUnsignedPrefix();
  }

  /**
   * Typing "1.2abc" into the odds input: `parseFloat` reads the leading number,
   * so both odds fields become 1.2 (the text is not rejected).
   */
  lemma OddsEditParsesLeadingNumber(m: Match)
    ensures Field(EditRecord(m, "odds", Text("1.2abc")), "odds") == Number(Finite(1.2))
    ensures Field(EditRecord(m, "odds", Text("1.2abc")), "predictedOdds") == Number(Finite(1.2))
  {
    ParseFloatPrefix();
    assert RoundNum(Finite(1.2)) == Finite(1.2) by {
      Round4OnGrid(12000);
      assert 12000 as real / 10000.0 == 1.2;
    }
  }

  /**
   * Typing "abc": `parseFloat` gives NaN, so the raw text is stored as `odds`
   * and `predictedOdds` keeps its old value.
   */
  lemma OddsEditKeepsUnparseableText(m: Match)
    ensures Field(EditRecord(m, "odds", Text("abc")), "odds") == Str("abc")
    ensures Field(EditRecord(m, "odds", Text("abc")), "predictedOdds") == Field(m, "predictedOdds")
  {
    assert SkipWhiteSpace("abc") == "abc";
    assert ParseUnsigned("abc").NaN? by { assert LeadingDigits("abc") == 0; }
  }

  /**
   * The odds input hands over `parseFloat` of its value, which is NaN once the
   * field is cleared: the NaN is still written raw into `odds`, so that record's
   * factor, and with it the whole draft's total, becomes NaN.
   */
  lemma ClearedOddsPoisonsTotal(ms: seq<Match>, i: nat)
    requires i < |ms|
    ensures OddsFactor(EditRecord(ms[i], "odds", Numeric(NaN))) == NaN
    ensures TotalOdds(ms[i := EditRecord(ms[i], "odds", Numeric(NaN))]) == NaN
  {
    var edited := ms[i := EditRecord(ms[i], "odds", Numeric(NaN))];
    var before, after := edited[..i], edited[i + 1..];
    assert edited == before + [edited[i]] + after;
    TotalOddsAppend(before + [edited[i]], after);
    TotalOddsSnoc(before, edited[i]);
  }
}
