/** The techno-economic projection engine: a scenario's growth and discount rates plus
    its financial inputs, turned into year-indexed series (subscribers, OPEX, revenue,
    profit, cumulative cash flow) and summary metrics (NPV, ROI, break-even year).
    Amounts are exact reals; subscriber counts are integers. */
module Calculations {
  import opened Numeric

  /** Growth and discount rates, stored as fractions (0.2 means 20 % a year). */
  datatype Scenario = Scenario(
    name: string,
    subscriberGrowthRate: real,
    opexGrowthRate: real,
    discountRate: real)

  /** Builds a scenario from rates given in percent, dividing each by 100 once. */
  function NewScenario(name: string, subscriberGrowthPct: real, opexGrowthPct: real, discountPct: real): (s: Scenario)
    ensures s.name == name
    ensures s.subscriberGrowthRate * 100.0 == subscriberGrowthPct
    ensures s.opexGrowthRate * 100.0 == opexGrowthPct
    ensures s.discountRate * 100.0 == discountPct
  {
    Scenario(name, subscriberGrowthPct / 100.0, opexGrowthPct / 100.0, discountPct / 100.0)
  }

  /** The rates as a saved configuration writes them: percentages again. */
  function RatesInPercent(s: Scenario): (real, real, real) {
    (s.subscriberGrowthRate * 100.0, s.opexGrowthRate * 100.0, s.discountRate * 100.0)
  }

  /** Saving a scenario built from percentages writes back exactly those percentages. */
  lemma PercentRoundTrip(name: string, subscriberGrowthPct: real, opexGrowthPct: real, discountPct: real)
    ensures RatesInPercent(NewScenario(name, subscriberGrowthPct, opexGrowthPct, discountPct))
         == (subscriberGrowthPct, opexGrowthPct, discountPct)
  {
  }

  /** The business assumptions of one scenario; the last three have the source's defaults. */
  datatype FinancialInputs = FinancialInputs(
    startingSubscribers: int,
    subscriptionFee: real,
    payPerUseFee: real,
    baseOpex: real,
    capex: real := 0.0,
    years: int := 5,
    subscriptionRatio: real := 1.0)

  /** The calculator only ever reads the scenario and inputs it was built with. */
  datatype Calculator = Calculator(scenario: Scenario, inputs: FinancialInputs)

  /** Every projected series starts with one entry and appends one per year from 1 to years-1. */
  function SeriesLength(years: int): (n: nat)
    ensures n >= 1
    ensures years >= 1 ==> n == years
    ensures years < 1 ==> n == 1
  {
    if years < 1 then 1 else years
  }

  // ---------------------------------------------------------------------------
  // Subscribers

  /** Subscriber counts: the start value compounded without rounding, each entry then truncated. */
  function Subscribers(c: Calculator): seq<int> {
    var grown := Compounded(c.inputs.startingSubscribers as real, c.scenario.subscriberGrowthRate,
                            SeriesLength(c.inputs.years));
    seq(|grown|, i requires 0 <= i < |grown| => Trunc(grown[i]))
  }

  /** Grows the count year by year on the untruncated value and truncates every entry at the end. */
  method ProjectSubscribers(c: Calculator) returns (subs: seq<int>)
    ensures subs == Subscribers(c)
  {
    var start := c.inputs.startingSubscribers as real;
    var g := c.scenario.subscriberGrowthRate;
    var grown: seq<real> := [start];
    var year := 1;
    while year < c.inputs.years
      invariant 1 <= year <= SeriesLength(c.inputs.years)
      invariant grown == Compounded(start, g, year)
    {
      grown := grown + [Grow(grown[|grown| - 1], g)];
      year := year + 1;
    }
    subs := [];
    for i := 0 to |grown|
      invariant |subs| == i
      invariant forall j :: 0 <= j < i ==> subs[j] == Trunc(grown[j])
    {
      subs := subs + [Trunc(grown[i])];
    }
  }

  /** The projection has max(years, 1) entries and begins at the starting count. */
  lemma SubscribersStart(c: Calculator)
    ensures |Subscribers(c)| == SeriesLength(c.inputs.years)
    ensures Subscribers(c)[0] == c.inputs.startingSubscribers
  {
    CompoundedRecurrence(c.inputs.startingSubscribers as real, c.scenario.subscriberGrowthRate,
                         SeriesLength(c.inputs.years));
    TruncOfInt(c.inputs.startingSubscribers);
  }

  /** Entry i is start * (1+g)^i truncated toward zero: compounding never rounds in between. */
  lemma SubscribersClosedForm(c: Calculator)
    ensures forall i :: 0 <= i < |Subscribers(c)| ==>
      Subscribers(c)[i] == Trunc(GrownBy(c.inputs.startingSubscribers as real, c.scenario.subscriberGrowthRate, i))
  {
    var start, g := c.inputs.startingSubscribers as real, c.scenario.subscriberGrowthRate;
    var grown := Compounded(start, g, SeriesLength(c.inputs.years));
    CompoundedClosedForm(start, g, SeriesLength(c.inputs.years));
    forall i | 0 <= i < |grown|
      ensures Subscribers(c)[i] == Trunc(GrownBy(start, g, i))
    {
      assert Subscribers(c)[i] == Trunc(grown[i]);
    }
  }

  /** With zero growth every year has the starting count. */
  lemma SubscribersWithoutGrowth(c: Calculator)
    requires c.scenario.subscriberGrowthRate == 0.0
    ensures forall i :: 0 <= i < |Subscribers(c)| ==> Subscribers(c)[i] == c.inputs.startingSubscribers
  {
    var n := SeriesLength(c.inputs.years);
    CompoundedWithoutGrowth(c.inputs.startingSubscribers as real, n);
    TruncOfInt(c.inputs.startingSubscribers);
  }

  /** A non-negative start with non-negative growth never loses subscribers. */
  lemma SubscribersNonDecreasing(c: Calculator)
    requires c.inputs.startingSubscribers >= 0 && c.scenario.subscriberGrowthRate >= 0.0
    ensures forall i, j :: 0 <= i <= j < |Subscribers(c)| ==> Subscribers(c)[i] <= Subscribers(c)[j]
  {
    var grown := Compounded(c.inputs.startingSubscribers as real, c.scenario.subscriberGrowthRate,
                            SeriesLength(c.inputs.years));
    CompoundedNonDecreasing(c.inputs.startingSubscribers as real, c.scenario.subscriberGrowthRate,
                            SeriesLength(c.inputs.years));
    forall i, j | 0 <= i <= j < |grown|
      ensures Subscribers(c)[i] <= Subscribers(c)[j]
    {
      TruncMonotone(grown[i], grown[j]);
    }
  }

  // ---------------------------------------------------------------------------
  // OPEX

  /** Operating cost per year: the base compounded at the OPEX growth rate, never rounded. */
  function Opex(c: Calculator): seq<real> {
    Compounded(c.inputs.baseOpex, c.scenario.opexGrowthRate, SeriesLength(c.inputs.years))
  }

  method ProjectOpex(c: Calculator) returns (opex: seq<real>)
    ensures opex == Opex(c)
  {
    var g := c.scenario.opexGrowthRate;
    opex := [c.inputs.baseOpex];
    var year := 1;
    while year < c.inputs.years
      invariant 1 <= year <= SeriesLength(c.inputs.years)
      invariant opex == Compounded(c.inputs.baseOpex, g, year)
    {
      opex := opex + [Grow(opex[|opex| - 1], g)];
      year := year + 1;
    }
  }

  /** OPEX has max(years, 1) entries, starts at the base and grows by (1+g) each year. */
  lemma OpexRecurrence(c: Calculator)
    ensures |Opex(c)| == SeriesLength(c.inputs.years)
    ensures Opex(c)[0] == c.inputs.baseOpex
    ensures forall i :: 0 < i < |Opex(c)| ==> Opex(c)[i] == Grow(Opex(c)[i - 1], c.scenario.opexGrowthRate)
  {
    CompoundedRecurrence(c.inputs.baseOpex, c.scenario.opexGrowthRate, SeriesLength(c.inputs.years));
  }

  /** With zero growth OPEX is the base every year. */
  lemma OpexWithoutGrowth(c: Calculator)
    requires c.scenario.opexGrowthRate == 0.0
    ensures forall i :: 0 <= i < |Opex(c)| ==> Opex(c)[i] == c.inputs.baseOpex
  {
    CompoundedWithoutGrowth(c.inputs.baseOpex, SeriesLength(c.inputs.years));
  }

  /** A non-negative base with non-negative growth gives non-decreasing OPEX. */
  lemma OpexNonDecreasing(c: Calculator)
    requires c.inputs.baseOpex >= 0.0 && c.scenario.opexGrowthRate >= 0.0
    ensures forall i, j :: 0 <= i <= j < |Opex(c)| ==> Opex(c)[i] <= Opex(c)[j]
  {
    CompoundedNonDecreasing(c.inputs.baseOpex, c.scenario.opexGrowthRate, SeriesLength(c.inputs.years));
  }

  // ---------------------------------------------------------------------------
  // Revenue

  /** Subscribers billed under the subscription plan: a fraction of the count, not truncated. */
  function SubscriptionUsers(inputs: FinancialInputs, subscribers: int): real {
    subscribers as real * inputs.subscriptionRatio
  }

  /** Subscribers billed per use: the complementary fraction, not truncated. */
  function PayPerUseUsers(inputs: FinancialInputs, subscribers: int): real {
    subscribers as real * (1.0 - inputs.subscriptionRatio)
  }

  /** The fractional split loses and invents no subscriber. */
  lemma UsersSplitExactly(inputs: FinancialInputs, subscribers: int)
    ensures SubscriptionUsers(inputs, subscribers) + PayPerUseUsers(inputs, subscribers) == subscribers as real
  {
  }

  /** Revenue of one year's subscriber count: each plan's users times that plan's fee. */
  function RevenueOf(inputs: FinancialInputs, subscribers: int): real {
    SubscriptionUsers(inputs, subscribers) * inputs.subscriptionFee
      + PayPerUseUsers(inputs, subscribers) * inputs.payPerUseFee
  }

  function Revenue(c: Calculator): seq<real> {
    var subs := Subscribers(c);
    seq(|subs|, i requires 0 <= i < |subs| => RevenueOf(c.inputs, subs[i]))
  }

  method ProjectRevenue(c: Calculator) returns (revenue: seq<real>)
    ensures |revenue| == |Subscribers(c)|
    ensures revenue == Revenue(c)
  {
    var subscribers := ProjectSubscribers(c);
    revenue := [];
    for i := 0 to |subscribers|
      invariant |revenue| == i
      invariant forall j :: 0 <= j < i ==> revenue[j] == RevenueOf(c.inputs, subscribers[j])
    {
      var s := subscribers[i];
      var usersSub := SubscriptionUsers(c.inputs, s);
      var usersPpu := PayPerUseUsers(c.inputs, s);
      var total := usersSub * c.inputs.subscriptionFee + usersPpu * c.inputs.payPerUseFee;
      revenue := revenue + [total];
    }
  }

  /** The two revenue streams separately; year by year they add up to the total revenue. */
  method ProjectRevenueBreakdown(c: Calculator) returns (revSub: seq<real>, revPpu: seq<real>)
    ensures |revSub| == |revPpu| == |Subscribers(c)|
    ensures forall i :: 0 <= i < |revSub| ==> revSub[i] + revPpu[i] == Revenue(c)[i]
    ensures forall i :: 0 <= i < |revSub| ==>
      revSub[i] == SubscriptionUsers(c.inputs, Subscribers(c)[i]) * c.inputs.subscriptionFee &&
      revPpu[i] == PayPerUseUsers(c.inputs, Subscribers(c)[i]) * c.inputs.payPerUseFee
  {
    var subscribers := ProjectSubscribers(c);
    revSub, revPpu := [], [];
    for i := 0 to |subscribers|
      invariant |revSub| == |revPpu| == i
      invariant forall j :: 0 <= j < i ==>
        revSub[j] == SubscriptionUsers(c.inputs, subscribers[j]) * c.inputs.subscriptionFee &&
        revPpu[j] == PayPerUseUsers(c.inputs, subscribers[j]) * c.inputs.payPerUseFee
    {
      var s := subscribers[i];
      var usersSub := SubscriptionUsers(c.inputs, s);
      var usersPpu := PayPerUseUsers(c.inputs, s);
      revSub := revSub + [usersSub * c.inputs.subscriptionFee];
      revPpu := revPpu + [usersPpu * c.inputs.payPerUseFee];
    }
  }

  /** When everyone is on the subscription plan, revenue is subscribers times the subscription fee. */
  lemma RevenueAllSubscription(c: Calculator)
    requires c.inputs.subscriptionRatio == 1.0
    ensures |Revenue(c)| == |Subscribers(c)|
    ensures forall i :: 0 <= i < |Revenue(c)| ==>
      Revenue(c)[i] == Subscribers(c)[i] as real * c.inputs.subscriptionFee
  {
  }

  // ---------------------------------------------------------------------------
  // Profit, cash flow, NPV, ROI, break-even

  /** Profit per year: revenue minus OPEX over the years both series cover. */
  function Profit(c: Calculator): (p: seq<real>)
    ensures |p| == |Revenue(c)| == |Opex(c)| == SeriesLength(c.inputs.years)
    ensures forall i :: 0 <= i < |p| ==> p[i] == Revenue(c)[i] - Opex(c)[i]
  {
    var revenue := Revenue(c);
    var opex := Opex(c);
    seq(Min(|revenue|, |opex|), i requires 0 <= i < Min(|revenue|, |opex|) => revenue[i] - opex[i])
  }

  /** Cash position after each year: CAPEX spent up front, then every profit so far added. */
  function CumulativeCashFlow(c: Calculator): seq<real> {
    var p := Profit(c);
    seq(|p|, i requires 0 <= i < |p| => -c.inputs.capex + Sum(p[..i + 1]))
  }

  method CalculateCumulativeCashFlow(c: Calculator) returns (cumulative: seq<real>)
    ensures cumulative == CumulativeCashFlow(c)
  {
    var profit := Profit(c);
    var capex := c.inputs.capex;
    cumulative := [];
    var total := -capex;
    for i := 0 to |profit|
      invariant |cumulative| == i
      invariant total == -capex + Sum(profit[..i])
      invariant forall j :: 0 <= j < i ==> cumulative[j] == -capex + Sum(profit[..j + 1])
    {
      SumPrefixStep(profit, i);
      total := total + profit[i];
      cumulative := cumulative + [total];
    }
  }

  /** Cash flow starts at profit minus CAPEX, adds one year's profit per step, and ends at
      total profit minus CAPEX. */
  lemma CashFlowRunningSum(c: Calculator)
    ensures |CumulativeCashFlow(c)| == |Profit(c)|
    ensures CumulativeCashFlow(c)[0] == -c.inputs.capex + Profit(c)[0]
    ensures forall i :: 0 < i < |Profit(c)| ==>
      CumulativeCashFlow(c)[i] == CumulativeCashFlow(c)[i - 1] + Profit(c)[i]
    ensures CumulativeCashFlow(c)[|Profit(c)| - 1] == -c.inputs.capex + Sum(Profit(c))
  {
    var p := Profit(c);
    SumPrefixStep(p, 0);
    assert p[..0] == [];
    forall i | 0 < i < |p|
      ensures CumulativeCashFlow(c)[i] == CumulativeCashFlow(c)[i - 1] + p[i]
    {
      SumPrefixStep(p, i);
    }
    assert p[..|p|] == p;
  }

  /** Net present value: each year's profit discounted by (1+dr)^(year number), CAPEX not included.
      The discount factor is zero only for a rate of -100 %, where the division fails. */
  function Npv(c: Calculator): (v: real)
    requires c.scenario.discountRate != -1.0
    ensures c.inputs.years <= 1 ==> v == Profit(c)[0] / (1.0 + c.scenario.discountRate)
  {
    var p := Profit(c);
    DiscountedSumAppend([], p[0], c.scenario.discountRate);
    assert c.inputs.years <= 1 ==> p == [] + [p[0]];
    DiscountedSum(p, c.scenario.discountRate)
  }

  /** At a zero discount rate NPV is plain total profit. */
  lemma NpvWithoutDiscount(c: Calculator)
    requires c.scenario.discountRate == 0.0
    ensures Npv(c) == Sum(Profit(c))
  {
    var p := Profit(c);
    var discounted := seq(|p|, i requires 0 <= i < |p| => p[i] / Pow(1.0, i + 1));
    forall i | 0 <= i < |p|
      ensures discounted[i] == p[i]
    {
      PowOfOne(i + 1);
    }
    assert discounted == p;
  }

  /** NPV does not depend on CAPEX at all. */
  lemma NpvIgnoresCapex(c: Calculator, otherCapex: real)
    requires c.scenario.discountRate != -1.0
    ensures Npv(c) == Npv(c.(inputs := c.inputs.(capex := otherCapex)))
  {
    var d := c.(inputs := c.inputs.(capex := otherCapex));
    assert Subscribers(d) == Subscribers(c);
    assert Opex(d) == Opex(c);
    forall s: int
      ensures RevenueOf(d.inputs, s) == RevenueOf(c.inputs, s)
    {
    }
    assert Revenue(d) == Revenue(c);
    assert Profit(d) == Profit(c);
  }

  /** ROI is a finite ratio, or the infinity the source returns when CAPEX is not positive. */
  datatype ReturnOnInvestment = Finite(ratio: real) | Infinite

  function Roi(c: Calculator): (r: ReturnOnInvestment)
    ensures r.Infinite? <==> c.inputs.capex <= 0.0
    ensures r.Finite? ==> r.ratio * c.inputs.capex == Sum(Profit(c)) - c.inputs.capex
  {
    if c.inputs.capex > 0.0 then Finite((Sum(Profit(c)) - c.inputs.capex) / c.inputs.capex) else Infinite
  }

  /** For positive CAPEX, ROI times CAPEX is the final cumulative cash position. */
  lemma RoiMatchesCashFlow(c: Calculator)
    requires c.inputs.capex > 0.0
    ensures Roi(c).Finite?
    ensures Roi(c).ratio * c.inputs.capex == CumulativeCashFlow(c)[|CumulativeCashFlow(c)| - 1]
  {
    CashFlowRunningSum(c);
  }

  /** A non-negative ROI on positive CAPEX means the final cash position is not negative, so
      break-even is reached within the horizon. */
  lemma BreakevenWhenRoiNonNegative(c: Calculator)
    requires c.inputs.capex > 0.0 && Roi(c).ratio >= 0.0
    ensures exists j :: 0 <= j < |CumulativeCashFlow(c)| && CumulativeCashFlow(c)[j] >= 0.0
  {
    RoiMatchesCashFlow(c);
    var last := |CumulativeCashFlow(c)| - 1;
    assert Roi(c).ratio * c.inputs.capex >= 0.0;
    assert CumulativeCashFlow(c)[last] >= 0.0;
  }

  /** First 1-based year whose cumulative cash flow is at least zero, or -1 if none is. */
  method CalculateBreakevenYear(c: Calculator) returns (year: int)
    ensures year == -1 <==> forall j :: 0 <= j < |CumulativeCashFlow(c)| ==> CumulativeCashFlow(c)[j] < 0.0
    ensures year != -1 ==>
      1 <= year <= |CumulativeCashFlow(c)| && CumulativeCashFlow(c)[year - 1] >= 0.0 &&
      forall j :: 0 <= j < year - 1 ==> CumulativeCashFlow(c)[j] < 0.0
  {
    var cashflow := CalculateCumulativeCashFlow(c);
    for i := 0 to |cashflow|
      invariant forall j :: 0 <= j < i ==> cashflow[j] < 0.0
    {
      if cashflow[i] >= 0.0 {
        return i + 1;
      }
    }
    return -1;
  }

  // ---------------------------------------------------------------------------
  // A worked scenario

  /** 100 subscribers growing 20 %, fees 100 and 20, OPEX 10000 growing 10 %, CAPEX 30000,
      five years, discount 5 %, everyone on subscription. */
  function ExampleCalculator(): Calculator {
    Calculator(NewScenario("Base", 20.0, 10.0, 5.0),
               FinancialInputs(100, 100.0, 20.0, 10000.0, 30000.0, 5, 1.0))
  }

  /** Truncating once after compounding gives 207 in year five (truncating every year would give 206);
      cash flow never reaches zero, so break-even is not reached, and ROI is negative. */
  lemma ExampleProjection()
    ensures Subscribers(ExampleCalculator()) == [100, 120, 144, 172, 207]
    ensures Opex(ExampleCalculator()) == [10000.0, 11000.0, 12100.0, 13310.0, 14641.0]
    ensures Revenue(ExampleCalculator()) == [10000.0, 12000.0, 14400.0, 17200.0, 20700.0]
    ensures CumulativeCashFlow(ExampleCalculator()) == [-30000.0, -29000.0, -26700.0, -22810.0, -16751.0]
    ensures Roi(ExampleCalculator()) == Finite(-16751.0 / 30000.0)
  {
    var c := ExampleCalculator();
    var g := 1.2;
    assert c.scenario.subscriberGrowthRate == 0.2 && c.scenario.opexGrowthRate == 0.1;
    assert Pow(g, 0) == 1.0 && Pow(g, 1) == 1.2 && Pow(g, 2) == 1.44;
    assert Pow(g, 3) == 1.728 && Pow(g, 4) == 2.0736;
    var h := 1.1;
    assert Pow(h, 0) == 1.0 && Pow(h, 1) == 1.1 && Pow(h, 2) == 1.21;
    assert Pow(h, 3) == 1.331 && Pow(h, 4) == 1.4641;
    var subs := Subscribers(c);
    assert subs[0] == Trunc(100.0) == 100;
    assert subs[1] == Trunc(120.0) == 120;
    assert subs[2] == Trunc(144.0) == 144;
    assert subs[3] == Trunc(172.8) == 172;
    assert subs[4] == Trunc(207.36) == 207;
    assert subs == [100, 120, 144, 172, 207];
    var p := Profit(c);
    assert p == [0.0, 1000.0, 2300.0, 3890.0, 6059.0];
    assert p[..0] == [];
    SumPrefixStep(p, 0);
    SumPrefixStep(p, 1);
    SumPrefixStep(p, 2);
    SumPrefixStep(p, 3);
    SumPrefixStep(p, 4);
    assert p[..5] == p;
    assert Sum(p) == 13249.0;
  }
}
