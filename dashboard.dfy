/**
 * The aggregates and response defaulting of the user dashboard
 * (src/pages/dashboard/page.tsx): the active stakes and their sums, the profit
 * percentage, the headline odds of the current daily event, and how the three
 * fetched payloads and the token balance fall back to defaults. Stakes, events
 * and payloads are untyped JSON values.
 */
module Dashboard {
  import opened Wrappers
  import opened JsValues
  import opened Sequences
  import AdminReview

  // ---------------------------------------------------------------------------
  // Stakes

  /** `s.status === 'ACTIVE'` */
  predicate IsActive(s: JsVal) {
    Prop(s, "status") == Str("ACTIVE")
  }

  /** `stakes.filter(s => s.status === 'ACTIVE')` */
  function ActiveStakes(stakes: seq<JsVal>): seq<JsVal> {
    Filter(IsActive, stakes)
  }

  /** The active stakes are exactly the stakes whose status is `ACTIVE`, each as often as it occurs, in order. */
  lemma ActiveStakesSpec(stakes: seq<JsVal>)
    ensures forall s :: s in ActiveStakes(stakes) ==> s in stakes && IsActive(s)
    ensures forall i :: 0 <= i < |stakes| && IsActive(stakes[i]) ==> stakes[i] in ActiveStakes(stakes)
    ensures forall s :: multiset(ActiveStakes(stakes))[s] == if IsActive(s) then multiset(stakes)[s] else 0
    ensures IsSubseq(ActiveStakes(stakes), stakes)
  {
    FilterIsSubseq(IsActive, stakes);
    forall s ensures multiset(Filter(IsActive, stakes))[s] == if IsActive(s) then multiset(stakes)[s] else 0 {
      FilterCount(IsActive, stakes, s);
    }
  }

  /**
   * `value || 0` as an addend: a falsy value counts as 0 and a number as
   * itself; any other truthy value is taken as NaN.
   */
  function Amount(v: JsVal): (n: Num)
    ensures !Truthy(v) ==> n == Finite(0.0)
    ensures Truthy(v) && v.Number? ==> n == v.n
  {
    if !Truthy(v) then Finite(0.0) else if v.Number? then v.n else NaN
  }

  /** `stakes.reduce((sum, s) => sum + (s[key] || 0), 0)`, adding from the left. */
  function SumOf(stakes: seq<JsVal>, key: string): Num
    decreases |stakes|
  {
    if stakes == [] then Finite(0.0)
    else Add(SumOf(stakes[..|stakes| - 1], key), Amount(Prop(stakes[|stakes| - 1], key)))
  }

  /** `totalStaked` */
  function TotalStaked(stakes: seq<JsVal>): Num {
    SumOf(ActiveStakes(stakes), "currentAmount")
  }

  /** `totalProfit` */
  function TotalProfit(stakes: seq<JsVal>): Num {
    Sub(TotalStaked(stakes), SumOf(ActiveStakes(stakes), "initialAmount"))
  }

  /** Every active stake's amount under `key` is a finite number or falsy. */
  predicate ActiveAmountsFinite(stakes: seq<JsVal>, key: string) {
    forall i :: 0 <= i < |stakes| && IsActive(stakes[i]) ==> Amount(Prop(stakes[i], key)).Finite?
  }

  /** The amount a stake adds to a dashboard sum: its own when active, else nothing. */
  function Contribution(s: JsVal, key: string): real
    requires IsActive(s) ==> Amount(Prop(s, key)).Finite?
  {
    if IsActive(s) then Amount(Prop(s, key)).r else 0.0
  }

  /** The sum over all stakes, inactive ones adding 0, taken from the right: a reference for the totals. */
  function ActiveSum(stakes: seq<JsVal>, key: string): real
    requires ActiveAmountsFinite(stakes, key)
    decreases |stakes|
  {
    if stakes == [] then 0.0
    else
      assert IsActive(stakes[0]) ==> Amount(Prop(stakes[0], key)).Finite?;
      Contribution(stakes[0], key) + ActiveSum(stakes[1..], key)
  }

  lemma AddAssociates(a: Num, b: Num, c: Num)
    ensures Add(Add(a, b), c) == Add(a, Add(b, c))
  {
  }

  lemma {:induction false} SumOfAppend(xs: seq<JsVal>, ys: seq<JsVal>, key: string)
    ensures SumOf(xs + ys, key) == Add(SumOf(xs, key), SumOf(ys, key))
    decreases |ys|
  {
    if ys == [] {
      assert xs + ys == xs;
      assert Add(SumOf(xs, key), Finite(0.0)) == SumOf(xs, key);
    } else {
      var init, last := ys[..|ys| - 1], ys[|ys| - 1];
      assert xs + ys == (xs + init) + [last];
      assert (xs + init + [last])[..|xs + init|] == xs + init;
      SumOfAppend(xs, init, key);
      AddAssociates(SumOf(xs, key), SumOf(init, key), Amount(Prop(last, key)));
    }
  }

  /** Peeling off the first stake of a sum. */
  lemma SumOfCons(stakes: seq<JsVal>, key: string)
    requires stakes != []
    ensures SumOf(stakes, key) == Add(Amount(Prop(stakes[0], key)), SumOf(stakes[1..], key))
  {
    assert [stakes[0]] + stakes[1..] == stakes;
    SumOfAppend([stakes[0]], stakes[1..], key);
    assert [stakes[0]][..0] == [];
  }

  lemma ActiveAmountsFiniteTail(stakes: seq<JsVal>, key: string)
    requires stakes != [] && ActiveAmountsFinite(stakes, key)
    ensures ActiveAmountsFinite(stakes[1..], key)
  {
    forall i | 0 <= i < |stakes[1..]| && IsActive(stakes[1..][i]) ensures Amount(Prop(stakes[1..][i], key)).Finite? {
      assert stakes[1..][i] == stakes[i + 1];
    }
  }

  /**
   * When the amounts involved are finite, a dashboard sum is the ordinary sum
   * of the active stakes' amounts: inactive stakes add nothing.
   */
  lemma {:induction false} SumOfActiveIsActiveSum(stakes: seq<JsVal>, key: string)
    requires ActiveAmountsFinite(stakes, key)
    ensures SumOf(ActiveStakes(stakes), key) == Finite(ActiveSum(stakes, key))
    decreases |stakes|
  {
    if stakes != [] {
      var first, rest := stakes[0], stakes[1..];
      ActiveAmountsFiniteTail(stakes, key);
      SumOfActiveIsActiveSum(rest, key);
      assert ActiveSum(stakes, key) == Contribution(first, key) + ActiveSum(rest, key);
      if IsActive(first) {
        assert ActiveStakes(stakes) == [first] + ActiveStakes(rest);
        SumOfCons(ActiveStakes(stakes), key);
        assert ActiveStakes(stakes)[1..] == ActiveStakes(rest);
      } else {
        assert ActiveStakes(stakes) == ActiveStakes(rest);
      }
    }
  }

  /** `totalStaked` and `totalProfit` in ordinary arithmetic: the staked sum, and it minus the sum of initial amounts. */
  lemma TotalsAreSums(stakes: seq<JsVal>)
    requires ActiveAmountsFinite(stakes, "currentAmount") && ActiveAmountsFinite(stakes, "initialAmount")
    ensures TotalStaked(stakes) == Finite(ActiveSum(stakes, "currentAmount"))
    ensures TotalProfit(stakes) == Finite(ActiveSum(stakes, "currentAmount") - ActiveSum(stakes, "initialAmount"))
  {
    var staked, initial := ActiveSum(stakes, "currentAmount"), ActiveSum(stakes, "initialAmount");
    SumOfActiveIsActiveSum(stakes, "currentAmount");
    assert TotalStaked(stakes) == Finite(staked);
    SumOfActiveIsActiveSum(stakes, "initialAmount");
    assert TotalProfit(stakes) == Sub(Finite(staked), Finite(initial));
  }

  /** `totalStaked > 0 ? (totalProfit / totalStaked) * 100 : 0` */
  function ProfitPercent(stakes: seq<JsVal>): (p: Num)
    ensures !Positive(TotalStaked(stakes)) ==> p == Finite(0.0)
    ensures TotalStaked(stakes).Finite? && TotalStaked(stakes).r > 0.0 && TotalProfit(stakes).Finite? ==>
              p == Finite(TotalProfit(stakes).r / TotalStaked(stakes).r * 100.0)
  {
    var staked := TotalStaked(stakes);
    if Positive(staked) then Mul(Div(TotalProfit(stakes), staked), Finite(100.0)) else Finite(0.0)
  }

  /** With non-negative initial amounts the profit never exceeds what is staked, so the percentage is at most 100. */
  lemma ProfitPercentAtMostHundred(stakes: seq<JsVal>)
    requires ActiveAmountsFinite(stakes, "currentAmount") && ActiveAmountsFinite(stakes, "initialAmount")
    requires ActiveSum(stakes, "initialAmount") >= 0.0
    ensures ProfitPercent(stakes).Finite? && ProfitPercent(stakes).r <= 100.0
  {
    TotalsAreSums(stakes);
    var s, i := ActiveSum(stakes, "currentAmount"), ActiveSum(stakes, "initialAmount");
    if s > 0.0 {
      ShareAtMostHundred(s, i);
    }
  }

  lemma ShareAtMostHundred(s: real, i: real)
    requires s > 0.0 && i >= 0.0
    ensures (s - i) / s * 100.0 <= 100.0
  {
    var r := (s - i) / s;
    assert r * s == s - i;
  }

  // ---------------------------------------------------------------------------
  // Odds

  /** One entry's factor: `odds` if a number, else `predictedOdds` if a number, else 1 (also for `null`). */
  function EntryFactor(v: JsVal): Num {
    if v.Obj? then AdminReview.OddsFactor(v.props) else Finite(1.0)
  }

  /** The dashboard's `calculateTotalOdds` over untyped entries. */
  function DashTotalOdds(entries: seq<JsVal>): Num
    decreases |entries|
  {
    if entries == [] then Finite(1.0)
    else Mul(DashTotalOdds(entries[..|entries| - 1]), EntryFactor(entries[|entries| - 1]))
  }

  /** An entry as a record: an object's properties, anything else no properties at all. */
  function AsRecord(v: JsVal): AdminReview.Match {
    if v.Obj? then v.props else map[]
  }

  function Records(entries: seq<JsVal>): seq<AdminReview.Match> {
    seq(|entries|, i requires 0 <= i < |entries| => AsRecord(entries[i]))
  }

  function EntryFactors(entries: seq<JsVal>): seq<Num> {
    seq(|entries|, i requires 0 <= i < |entries| => EntryFactor(entries[i]))
  }

  /** The dashboard's product is the generic left fold of `*` over the entries' factors. */
  lemma {:induction false} DashTotalOddsIsFold(entries: seq<JsVal>)
    ensures DashTotalOdds(entries) == MulAll(EntryFactors(entries))
    decreases |entries|
  {
    if entries != [] {
      var init := entries[..|entries| - 1];
      DashTotalOddsIsFold(init);
      assert EntryFactors(entries)[..|entries| - 1] == EntryFactors(init);
    }
  }

  /** The dashboard's product is the review page's product over the entries read as records. */
  lemma DashTotalOddsAgrees(entries: seq<JsVal>)
    ensures DashTotalOdds(entries) == AdminReview.TotalOdds(Records(entries))
  {
    DashTotalOddsIsFold(entries);
    AdminReview.TotalOddsIsFold(Records(entries));
    var rs := Records(entries);
    forall i | 0 <= i < |entries|
      ensures EntryFactors(entries)[i] == AdminReview.Factors(rs)[i]
    {
      EntryFactorOfRecord(entries[i]);
    }
    assert EntryFactors(entries) == AdminReview.Factors(rs);
  }

  lemma EntryFactorOfRecord(v: JsVal)
    ensures EntryFactor(v) == AdminReview.OddsFactor(AsRecord(v))
  {
    if !v.Obj? {
      assert "odds" !in AsRecord(v) && "predictedOdds" !in AsRecord(v);
    }
  }

  /** A `null` entry, or any entry that is not an object, leaves the product unchanged. */
  lemma NonObjectEntryNeutral(entries: seq<JsVal>, v: JsVal)
    requires !v.Obj?
    ensures DashTotalOdds(entries + [v]) == DashTotalOdds(entries)
  {
    assert (entries + [v])[..|entries|] == entries;
    MulOne(DashTotalOdds(entries));
  }

  /** The list behind the headline odds: `adminPredictions` if a non-empty array, else `matches`, else empty. */
  function HeadlineMatches(dailyEvent: JsVal): (r: seq<JsVal>)
    ensures Prop(dailyEvent, "adminPredictions").Arr? && Prop(dailyEvent, "adminPredictions").items != [] ==>
              r == Prop(dailyEvent, "adminPredictions").items
    ensures !(Prop(dailyEvent, "adminPredictions").Arr? && Prop(dailyEvent, "adminPredictions").items != []) ==>
              r == (if Prop(dailyEvent, "matches").Arr? then Prop(dailyEvent, "matches").items else [])
  {
    var admin := Prop(dailyEvent, "adminPredictions");
    var matches := Prop(dailyEvent, "matches");
    if admin.Arr? && |admin.items| > 0 then admin.items
    else if matches.Arr? then matches.items
    else []
  }

  /** The odds shown before formatting; None where the page's `totalOdds.toFixed` would throw. */
  function HeadlineOdds(dailyEvent: JsVal): (r: Option<Num>)
    ensures HeadlineMatches(dailyEvent) != [] ==> r == Some(DashTotalOdds(HeadlineMatches(dailyEvent)))
    ensures (HeadlineMatches(dailyEvent) == [] && Prop(dailyEvent, "totalOdds").Number?
             && Truthy(Prop(dailyEvent, "totalOdds"))) ==> r == Some(Prop(dailyEvent, "totalOdds").n)
    ensures HeadlineMatches(dailyEvent) == [] && !Truthy(Prop(dailyEvent, "totalOdds")) ==> r == Some(Finite(1.05))
    ensures r.None? <==> HeadlineMatches(dailyEvent) == [] && Truthy(Prop(dailyEvent, "totalOdds"))
                         && !Prop(dailyEvent, "totalOdds").Number?
  {
    var matches := HeadlineMatches(dailyEvent);
    var cached := Prop(dailyEvent, "totalOdds");
    if |matches| > 0 then Some(DashTotalOdds(matches))
    else if Truthy(cached) then (if cached.Number? then Some(cached.n) else None)
    else Some(Finite(1.05))
  }

  /** With no daily event the headline reads 1.05. */
  lemma NoEventHeadline()
    ensures HeadlineOdds(Null) == Some(Finite(1.05))
  {
  }

  // ---------------------------------------------------------------------------
  // Response defaulting in fetchData

  /** `Array.isArray(r) ? r : r?.stakes || []` */
  function StakesFrom(result: JsVal): (r: JsVal)
    ensures result.Arr? ==> r == result
    ensures !result.Arr? && Truthy(Prop(result, "stakes")) ==> r == Prop(result, "stakes")
    ensures !result.Arr? && !Truthy(Prop(result, "stakes")) ==> r == Arr([])
  {
    if result.Arr? then result else OrElse(Prop(result, "stakes"), Arr([]))
  }

  /** `r?.dailyEvent || null` */
  function DailyEventFrom(result: JsVal): (r: JsVal)
    ensures Truthy(r) || r == Null
    ensures Truthy(Prop(result, "dailyEvent")) ==> r == Prop(result, "dailyEvent")
    ensures !Truthy(Prop(result, "dailyEvent")) ==> r == Null
  {
    OrElse(Prop(result, "dailyEvent"), Null)
  }

  datatype TokenBalance = TokenBalance(rolBalance: JsVal, pendingRewards: JsVal, totalEarned: JsVal)

  const ZeroBalance: TokenBalance := TokenBalance(Zero, Zero, Zero)

  /** `user && typeof user === 'object' && 'id' in user` */
  predicate IsUserRecord(user: JsVal) {
    user.Obj? && "id" in user.props
  }

  /** A balance field is either a truthy value read from the payload or 0. */
  predicate IsDefaulted(v: JsVal) {
    Truthy(v) || v == Zero
  }

  /**
   * The token balance: read only for a user record, each field `|| 0`; zero
   * when there is no user record or the balance request failed (None).
   */
  function BalanceFrom(user: JsVal, tokens: Option<JsVal>): (b: TokenBalance)
    ensures IsDefaulted(b.rolBalance) && IsDefaulted(b.pendingRewards) && IsDefaulted(b.totalEarned)
    ensures !IsUserRecord(user) || tokens.None? ==> b == ZeroBalance
    ensures IsUserRecord(user) && tokens.Some? && Truthy(Prop(tokens.value, "rolBalance")) ==>
              b.rolBalance == Prop(tokens.value, "rolBalance")
    ensures IsUserRecord(user) && tokens.Some? && !Truthy(Prop(tokens.value, "rolBalance")) ==> b.rolBalance == Zero
    ensures IsUserRecord(user) && tokens.Some? && Truthy(Prop(tokens.value, "pendingRewards")) ==>
              b.pendingRewards == Prop(tokens.value, "pendingRewards")
    ensures IsUserRecord(user) && tokens.Some? && !Truthy(Prop(tokens.value, "pendingRewards")) ==> b.pendingRewards == Zero
    ensures IsUserRecord(user) && tokens.Some? && Truthy(Prop(tokens.value, "totalEarned")) ==>
              b.totalEarned == Prop(tokens.value, "totalEarned")
    ensures IsUserRecord(user) && tokens.Some? && !Truthy(Prop(tokens.value, "totalEarned")) ==> b.totalEarned == Zero
  {
    if IsUserRecord(user) && tokens.Some? then
      var t := tokens.value;
      TokenBalance(OrElse(Prop(t, "rolBalance"), Zero), OrElse(Prop(t, "pendingRewards"), Zero),
                   OrElse(Prop(t, "totalEarned"), Zero))
    else ZeroBalance
  }

  /** The state `fetchData` writes. */
  datatype DashboardData = DashboardData(user: JsVal, stakes: JsVal, dailyEvent: JsVal, balance: TokenBalance)

  /**
   * `fetchData`: nothing happens without a token; each of the three parallel
   * requests falls back to its own default when it fails (None), and the
   * balance is fetched only for a user record.
   */
  function FetchData(token: string, user: Option<JsVal>, stakesResult: Option<JsVal>,
                     eventsResult: Option<JsVal>, tokens: Option<JsVal>): (r: Option<DashboardData>)
    ensures r.None? <==> token == ""
    ensures r.Some? && user.None? ==> r.value.user == Null && r.value.balance == ZeroBalance
    ensures r.Some? && stakesResult.None? ==> r.value.stakes == Arr([])
    ensures r.Some? && eventsResult.None? ==> r.value.dailyEvent == Null
    ensures r.Some? ==> Truthy(r.value.dailyEvent) || r.value.dailyEvent == Null
    ensures r.Some? && user.Some? ==> r.value.user == user.value
    ensures r.Some? && stakesResult.Some? ==> r.value.stakes == StakesFrom(stakesResult.value)
    ensures r.Some? && eventsResult.Some? ==> r.value.dailyEvent == DailyEventFrom(eventsResult.value)
    ensures r.Some? ==> r.value.balance == BalanceFrom(r.value.user, tokens)
  {
    if token == "" then None
    else
      var u := user.GetOr(Null);
      Some(DashboardData(
        u,
        StakesFrom(stakesResult.GetOr(Obj(map["stakes" := Arr([])]))),
        DailyEventFrom(eventsResult.GetOr(Obj(map["dailyEvent" := Null, "activeStakes" := Arr([])]))),
        BalanceFrom(u, tokens)))
  }
}
