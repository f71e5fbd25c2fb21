/** Reverse pricing: the fee each subscriber must pay per year so that the year's
    OPEX, plus an even share of CAPEX over an amortisation window, plus an optional
    margin, is covered. */
module ReversePricing {
  import opened Numeric

  /** CAPEX spread evenly over the first amortizeYears of n years, nothing after. A window of
      zero or fewer years spreads nothing, and the division is then never made. */
  function AmortizedCapex(n: nat, capex: real, amortizeYears: int): (amortized: seq<real>)
    ensures |amortized| == n
    ensures amortizeYears <= 0 ==> forall i :: 0 <= i < n ==> amortized[i] == 0.0
    ensures forall i :: 0 <= i < n ==>
      if i < amortizeYears then amortized[i] * amortizeYears as real == capex else amortized[i] == 0.0
  {
    seq(n, i requires 0 <= i < n => if i < amortizeYears then capex / amortizeYears as real else 0.0)
  }

  /** The first k amortised shares add up to min(k, window) shares. */
  lemma {:induction false} AmortizedPrefixSum(n: nat, capex: real, amortizeYears: int, k: nat)
    requires 0 < amortizeYears && k <= n
    ensures Sum(AmortizedCapex(n, capex, amortizeYears)[..k])
         == Min(k, amortizeYears) as real * (capex / amortizeYears as real)
  {
    var a := AmortizedCapex(n, capex, amortizeYears);
    if k == 0 {
      assert a[..0] == [];
    } else {
      AmortizedPrefixSum(n, capex, amortizeYears, k - 1);
      SumPrefixStep(a, k - 1);
    }
  }

  /** When the window fits in the horizon, the shares add up to exactly the CAPEX. */
  lemma AmortizationCoversCapex(n: nat, capex: real, amortizeYears: int)
    requires 0 < amortizeYears <= n
    ensures Sum(AmortizedCapex(n, capex, amortizeYears)) == capex
  {
    var a := AmortizedCapex(n, capex, amortizeYears);
    AmortizedPrefixSum(n, capex, amortizeYears, n);
    assert a[..n] == a;
  }

  /** The cost a year's subscribers must cover: its OPEX plus its CAPEX share. */
  function TotalRequired(opex: seq<real>, amortized: seq<real>): (total: seq<real>)
    ensures |total| == Min(|opex|, |amortized|)
    ensures forall i :: 0 <= i < |total| ==> total[i] - opex[i] == amortized[i]
  {
    seq(Min(|opex|, |amortized|), i requires 0 <= i < Min(|opex|, |amortized|) => opex[i] + amortized[i])
  }

  /** Over equally long series, the costs of the first k years are their OPEX plus their CAPEX shares. */
  lemma {:induction false} TotalRequiredPrefixSum(opex: seq<real>, amortized: seq<real>, k: nat)
    requires |opex| == |amortized| && k <= |opex|
    ensures Sum(TotalRequired(opex, amortized)[..k]) == Sum(opex[..k]) + Sum(amortized[..k])
  {
    var total := TotalRequired(opex, amortized);
    if k == 0 {
      assert total[..0] == [] && opex[..0] == [] && amortized[..0] == [];
    } else {
      TotalRequiredPrefixSum(opex, amortized, k - 1);
      SumPrefixStep(total, k - 1);
      SumPrefixStep(opex, k - 1);
      SumPrefixStep(amortized, k - 1);
    }
  }

  /** When the amortisation window fits in the horizon, the costs to recover over all years are
      the total OPEX plus exactly the CAPEX. */
  lemma TotalRequiredCoversCapex(opex: seq<real>, capex: real, amortizeYears: int)
    requires 0 < amortizeYears <= |opex|
    ensures Sum(TotalRequired(opex, AmortizedCapex(|opex|, capex, amortizeYears))) == Sum(opex) + capex
  {
    var amortized := AmortizedCapex(|opex|, capex, amortizeYears);
    var total := TotalRequired(opex, amortized);
    TotalRequiredPrefixSum(opex, amortized, |opex|);
    AmortizationCoversCapex(|opex|, capex, amortizeYears);
    assert total[..|opex|] == total && opex[..|opex|] == opex && amortized[..|opex|] == amortized;
  }

  /** The divisor max(users, 1): no subscribers, or a negative count, is priced as one. */
  function AtLeastOne(users: int): (divisor: int)
    ensures divisor >= 1
    ensures users >= 1 ==> divisor == users
    ensures users < 1 ==> divisor == 1
  {
    if users > 1 then users else 1
  }

  /** One year's fee: its cost over max(users, 1), marked up by the margin. Charged to every
      counted subscriber it covers the cost plus margin exactly. */
  function YearFee(cost: real, users: int, margin: real): (fee: real)
    ensures fee * AtLeastOne(users) as real == cost * (1.0 + margin)
  {
    cost / AtLeastOne(users) as real * (1.0 + margin)
  }

  /** Fee per subscriber for each year both inputs cover. */
  function RequiredFees(subscribers: seq<int>, opex: seq<real>, capex: real, amortizeYears: int, margin: real)
    : (fees: seq<real>)
    ensures |fees| == Min(|subscribers|, |opex|)
    ensures forall i :: 0 <= i < |fees| ==>
      fees[i] * AtLeastOne(subscribers[i]) as real
        == (opex[i] + AmortizedCapex(|opex|, capex, amortizeYears)[i]) * (1.0 + margin)
  {
    var total := TotalRequired(opex, AmortizedCapex(|opex|, capex, amortizeYears));
    var n := Min(|subscribers|, |total|);
    seq(n, i requires 0 <= i < n => YearFee(total[i], subscribers[i], margin))
  }

  /** Divides each year's cost by its subscriber count (at least one) and adds the margin. */
  method CalculateMinFeePerUser(
    projectedSubscribers: seq<int>,
    opexPerYear: seq<real>,
    capex: real := 0.0,
    amortizeCapexYears: int := 1,
    addMargin: real := 0.0)
    returns (requiredFees: seq<real>)
    ensures requiredFees == RequiredFees(projectedSubscribers, opexPerYear, capex, amortizeCapexYears, addMargin)
  {
    var amortized := AmortizedCapex(|opexPerYear|, capex, amortizeCapexYears);
    var totalRequired := TotalRequired(opexPerYear, amortized);
    var n := Min(|projectedSubscribers|, |totalRequired|);
    requiredFees := [];
    for i := 0 to n
      invariant |requiredFees| == i
      invariant forall j :: 0 <= j < i ==>
        requiredFees[j] == YearFee(totalRequired[j], projectedSubscribers[j], addMargin)
    {
      var fee := totalRequired[i] / AtLeastOne(projectedSubscribers[i]) as real;
      fee := fee * (1.0 + addMargin);
      requiredFees := requiredFees + [fee];
    }
  }

  /** A year with no (or a negative number of) subscribers is charged its whole cost plus margin. */
  lemma NoSubscribersPaysWholeCost(subscribers: seq<int>, opex: seq<real>, capex: real, amortizeYears: int, margin: real)
    ensures forall i :: 0 <= i < |RequiredFees(subscribers, opex, capex, amortizeYears, margin)| && subscribers[i] <= 1 ==>
      RequiredFees(subscribers, opex, capex, amortizeYears, margin)[i]
        == (opex[i] + AmortizedCapex(|opex|, capex, amortizeYears)[i]) * (1.0 + margin)
  {
  }

  /** Without an amortisation window, fees cover OPEX alone. */
  lemma NoWindowCoversOpexOnly(subscribers: seq<int>, opex: seq<real>, capex: real, amortizeYears: int, margin: real)
    requires amortizeYears <= 0
    ensures forall i :: 0 <= i < |RequiredFees(subscribers, opex, capex, amortizeYears, margin)| ==>
      RequiredFees(subscribers, opex, capex, amortizeYears, margin)[i] * AtLeastOne(subscribers[i]) as real
        == opex[i] * (1.0 + margin)
  {
  }

  /** 100 of OPEX over 10 subscribers costs 10 each; adding 50 of CAPEX amortised over that one year
      raises it to 15. */
  lemma FeeExamples()
    ensures RequiredFees([10], [100.0], 0.0, 1, 0.0) == [10.0]
    ensures RequiredFees([10], [100.0], 50.0, 1, 0.0) == [15.0]
  {
  }
}
