/** Model prices in minor units per million tokens, the frozen worst case and the exact cost of a usage. */
module Pricing {
  import opened Int64

  const DEFAULT_MAX_BILLABLE_INPUT_TOKENS: int64 := 128_000
  const DEFAULT_MAX_OUTPUT_TOKENS: int64 := 4_096
  const TOKENS_PER_MILLION: int64 := 1_000_000

  datatype PricingError = InvalidTokenLimit | CostOverflow | UnknownModelPolicy

  datatype ModelPrice = ModelPrice(inputPer1M: int64, outputPer1M: int64,
                                   cacheCreationInputPer1M: int64, cacheReadInputPer1M: int64)
  {
    predicate Positive() {
      0 < inputPer1M && 0 < outputPer1M && 0 < cacheCreationInputPer1M && 0 < cacheReadInputPer1M
    }
  }

  datatype ModelPolicy = ModelPolicy(price: ModelPrice, maxBillableInputTokens: int64, maxOutputTokens: int64)

  datatype Pricing = Pricing(models: map<string, ModelPolicy>, fallback: ModelPolicy,
                             strict: bool, invalidModels: set<string>)

  function NormalizePolicy(p: ModelPolicy, fallback: ModelPolicy): ModelPolicy {
    var price := p.price;
    var creation := if price.cacheCreationInputPer1M <= 0 then price.inputPer1M else price.cacheCreationInputPer1M;
    var read := if price.cacheReadInputPer1M <= 0 then price.inputPer1M else price.cacheReadInputPer1M;
    ModelPolicy(price.(cacheCreationInputPer1M := creation, cacheReadInputPer1M := read),
                FirstPositive(p.maxBillableInputTokens, fallback.maxBillableInputTokens, DEFAULT_MAX_BILLABLE_INPUT_TOKENS),
                FirstPositive(p.maxOutputTokens, fallback.maxOutputTokens, DEFAULT_MAX_OUTPUT_TOKENS))
  }

  function FirstPositive(a: int64, b: int64, c: int64): int64 {
    if a > 0 then a else if b > 0 then b else c
  }

  /** Each configured policy is completed from the caller's fallback, the fallback itself from the defaults. */
  function NewPricing(models: map<string, ModelPolicy>, fallback: ModelPolicy): Pricing {
    Pricing(map name | name in models :: NormalizePolicy(models[name], fallback),
            NormalizePolicy(fallback, ModelPolicy(ModelPrice(0, 0, 0, 0), DEFAULT_MAX_BILLABLE_INPUT_TOKENS, DEFAULT_MAX_OUTPUT_TOKENS)),
            false, {})
  }

  predicate Explicit(p: ModelPolicy) {
    p.price.Positive() && 0 < p.maxBillableInputTokens && 0 < p.maxOutputTokens
  }

  function NewStrictPricing(models: map<string, ModelPolicy>, fallback: ModelPolicy): Pricing {
    NewPricing(models, fallback).(strict := true,
                                  invalidModels := set name | name in models && !Explicit(models[name]))
  }

  function CheckedPolicy(p: Pricing, model: string): Result<ModelPolicy, PricingError> {
    if model !in p.models && p.strict then Err(UnknownModelPolicy)
    else if model in p.invalidModels then Err(InvalidTokenLimit)
    else Ok(if model in p.models then p.models[model] else p.fallback)
  }

  function NormalizeMaxOutput(p: Pricing, model: string, requested: Option<int64>): Result<int64, PricingError> {
    match CheckedPolicy(p, model)
    case Err(e) => Err(e)
    case Ok(policy) =>
      var limit := policy.maxOutputTokens;
      if limit <= 0 then Err(InvalidTokenLimit)
      else match requested
           case None => Ok(limit)
           case Some(n) => if n <= 0 || n > limit then Err(InvalidTokenLimit) else Ok(n)
  }

  // ---- cost of a list of weighted token counts ----

  datatype WeightedTokens = WeightedTokens(tokens: int64, price: int64)

  predicate AllNonNegative(parts: seq<WeightedTokens>) {
    forall i | 0 <= i < |parts| :: 0 <= parts[i].tokens && 0 <= parts[i].price
  }

  /** The exact weighted sum, as a mathematical integer. */
  function WeightedSum(parts: seq<WeightedTokens>): int {
    if parts == [] then 0
    else WeightedSum(parts[..|parts| - 1]) + parts[|parts| - 1].tokens * parts[|parts| - 1].price
  }

  /** What checkedCostParts means: the sum in millions rounded up, unless anything is negative or leaves int64. */
  function CostOf(parts: seq<WeightedTokens>): Result<int64, PricingError> {
    if !AllNonNegative(parts) || WeightedSum(parts) > MAX_INT64 - (TOKENS_PER_MILLION - 1) then Err(CostOverflow)
    else
      NonNegativeSum(parts);
      Ok((WeightedSum(parts) + TOKENS_PER_MILLION - 1) / TOKENS_PER_MILLION)
  }

  lemma {:induction false} NonNegativeSum(parts: seq<WeightedTokens>)
    requires AllNonNegative(parts)
    ensures 0 <= WeightedSum(parts)
  {
    if parts != [] {
      NonNegativeSum(parts[..|parts| - 1]);
      MulMonotone(0, parts[|parts| - 1].tokens, parts[|parts| - 1].price);
    }
  }

  /** Prefix sums only grow, so the loop's early overflow exit fires exactly when the whole sum overflows. */
  lemma {:induction false} PrefixSumMonotone(parts: seq<WeightedTokens>, k: nat)
    requires AllNonNegative(parts) && k <= |parts|
    ensures 0 <= WeightedSum(parts[..k]) <= WeightedSum(parts)
    decreases |parts|
  {
    NonNegativeSum(parts[..k]);
    if k == |parts| {
      assert parts[..k] == parts;
    } else {
      var front := parts[..|parts| - 1];
      PrefixSumMonotone(front, k);
      assert front[..k] == parts[..k];
      MulMonotone(0, parts[|parts| - 1].tokens, parts[|parts| - 1].price);
    }
  }

  method CheckedCostParts(parts: seq<WeightedTokens>) returns (r: Result<int64, PricingError>)
    ensures r == CostOf(parts)
  {
    var total: int64 := 0;
    var i := 0;
    while i < |parts|
      invariant 0 <= i <= |parts|
      invariant AllNonNegative(parts[..i]) && 0 <= total == WeightedSum(parts[..i])
    {
      var part := parts[i];
      if part.tokens < 0 || part.price < 0 {
        return Err(CostOverflow);
      }
      assert parts[..i + 1][..i] == parts[..i];
      assert AllNonNegative(parts[..i + 1]);
      var value := CheckedMul(part.tokens, part.price);
      MulMonotone(0, part.tokens, part.price);
      if value.None? || total > MAX_INT64 - value.value {
        if AllNonNegative(parts) { PrefixSumMonotone(parts, i + 1); }
        return Err(CostOverflow);
      }
      total := total + value.value;
      i := i + 1;
    }
    assert parts[..i] == parts;
    if total == 0 {
      return Ok(0);
    }
    if total > MAX_INT64 - (TOKENS_PER_MILLION - 1) {
      return Err(CostOverflow);
    }
    return Ok((total + TOKENS_PER_MILLION - 1) / TOKENS_PER_MILLION);
  }

  function CheckedCost(inputPrice: int64, outputPrice: int64, input: int64, output: int64): Result<int64, PricingError> {
    CostOf([WeightedTokens(input, inputPrice), WeightedTokens(output, outputPrice)])
  }

  function Max(a: int64, b: int64): int64 { if a >= b then a else b }

  /** The worst case frozen before any upstream is contacted, with the input bound it covers. */
  function ReservationCost(p: Pricing, model: string, maxOutput: int64): Result<(int64, int64), PricingError> {
    match CheckedPolicy(p, model)
    case Err(e) => Err(e)
    case Ok(policy) =>
      if maxOutput <= 0 || maxOutput > policy.maxOutputTokens || policy.maxBillableInputTokens <= 0 || !policy.price.Positive()
      then Err(InvalidTokenLimit)
      else
        var price := policy.price;
        var worstInput := Max(Max(price.inputPer1M, price.cacheCreationInputPer1M), price.cacheReadInputPer1M);
        match CheckedCost(worstInput, price.outputPer1M, policy.maxBillableInputTokens, maxOutput)
        case Err(e) => Err(e)
        case Ok(cost) => Ok((cost, policy.maxBillableInputTokens))
  }

  function UsageParts(price: ModelPrice, input: int64, output: int64, creation: int64, read: int64): seq<WeightedTokens> {
    [WeightedTokens(input, price.inputPer1M), WeightedTokens(output, price.outputPer1M),
     WeightedTokens(creation, price.cacheCreationInputPer1M), WeightedTokens(read, price.cacheReadInputPer1M)]
  }

  function CostUsageChecked(p: Pricing, model: string, input: int64, output: int64, creation: int64, read: int64)
    : Result<int64, PricingError>
  {
    match CheckedPolicy(p, model)
    case Err(e) => Err(e)
    case Ok(policy) => CostOf(UsageParts(policy.price, input, output, creation, read))
  }

  /** Price of a total whose split is unknown: every token at the highest of the four prices. */
  function ConservativeTotalCost(p: Pricing, model: string, total: int64): Result<int64, PricingError> {
    match CheckedPolicy(p, model)
    case Err(e) => Err(e)
    case Ok(policy) =>
      var price := policy.price;
      if !price.Positive() then Err(InvalidTokenLimit)
      else
        var highest := Max(Max(price.inputPer1M, price.outputPer1M), Max(price.cacheCreationInputPer1M, price.cacheReadInputPer1M));
        CheckedCost(highest, 0, total, 0)
  }

  // ---- what a price is ----

  /** What a usage is worth, in millionths of a minor unit: every count at its own price per million. */
  function Millionths(price: ModelPrice, input: int, output: int, creation: int, read: int): int {
    input * price.inputPer1M + output * price.outputPer1M
    + creation * price.cacheCreationInputPer1M + read * price.cacheReadInputPer1M
  }

  /** Rounded up to whole minor units, by less than one. */
  ghost predicate RoundsUp(cost: int, millionths: int) { (cost - 1) * 1_000_000 < millionths <= cost * 1_000_000 }

  ghost predicate CanRoundUp(millionths: int) { millionths <= MAX_INT64 - 999_999 }

  lemma CostRoundsUp(parts: seq<WeightedTokens>)
    ensures CostOf(parts).Ok? <==> AllNonNegative(parts) && CanRoundUp(WeightedSum(parts))
    ensures CostOf(parts).Ok? ==> 0 <= CostOf(parts).value && RoundsUp(CostOf(parts).value, WeightedSum(parts))
  {
    if CostOf(parts).Ok? { NonNegativeSum(parts); }
  }

  /** A usage is priced unless a count is negative or its worth does not fit, and then at its worth rounded up. */
  lemma UsagePrice(p: Pricing, model: string, input: int64, output: int64, creation: int64, read: int64)
    requires CheckedPolicy(p, model).Ok? && CheckedPolicy(p, model).value.price.Positive()
    ensures var worth, cost := Millionths(CheckedPolicy(p, model).value.price, input, output, creation, read),
                               CostUsageChecked(p, model, input, output, creation, read);
      && (cost.Ok? <==> 0 <= input && 0 <= output && 0 <= creation && 0 <= read && CanRoundUp(worth))
      && (cost.Ok? ==> 0 <= cost.value && RoundsUp(cost.value, worth)) && (cost.Err? ==> cost.error == CostOverflow)
  {
    var price := CheckedPolicy(p, model).value.price;
    var parts := UsageParts(price, input, output, creation, read);
    CostRoundsUp(parts);
    UsageSum(price, input, output, creation, read);
    assert parts[0].tokens == input && parts[1].tokens == output && parts[2].tokens == creation && parts[3].tokens == read;
  }

  ghost predicate IsHighest(highest: int, prices: set<int64>) { highest in prices && forall x | x in prices :: x <= highest }

  predicate Limited(policy: ModelPolicy, maxOutput: int64) {
    0 < maxOutput <= policy.maxOutputTokens && 0 < policy.maxBillableInputTokens && policy.price.Positive()
  }

  /** The frozen amount is the worth of the input bound at the dearest of the three input prices and of the asked output;
      it exists whenever the limits and prices are positive, the output is within its limit and that worth fits. */
  lemma ReservationPrice(p: Pricing, model: string, maxOutput: int64)
    requires CheckedPolicy(p, model).Ok?
    ensures var policy, cost := CheckedPolicy(p, model).value, ReservationCost(p, model, maxOutput);
      exists worst: int64 ::
        && IsHighest(worst, {policy.price.inputPer1M, policy.price.cacheCreationInputPer1M, policy.price.cacheReadInputPer1M})
        && var worth := policy.maxBillableInputTokens * worst + maxOutput * policy.price.outputPer1M;
        && (cost.Ok? <==> Limited(policy, maxOutput) && CanRoundUp(worth))
        && (cost.Ok? ==> RoundsUp(cost.value.0, worth) && cost.value.1 == policy.maxBillableInputTokens)
        && (cost.Err? ==> cost.error == if Limited(policy, maxOutput) then CostOverflow else InvalidTokenLimit)
  {
    var policy := CheckedPolicy(p, model).value;
    var price := policy.price;
    var worst := Max(Max(price.inputPer1M, price.cacheCreationInputPer1M), price.cacheReadInputPer1M);
    var parts := [WeightedTokens(policy.maxBillableInputTokens, worst), WeightedTokens(maxOutput, price.outputPer1M)];
    CostRoundsUp(parts);
    PairSum(parts[0], parts[1]);
    assert IsHighest(worst, {price.inputPer1M, price.cacheCreationInputPer1M, price.cacheReadInputPer1M});
  }

  /** The input bound, all of it at one of the three input prices. */
  lemma DearestSplit(price: ModelPrice, bound: int64, worst: int64) returns (input: int64, creation: int64, read: int64)
    requires worst in {price.inputPer1M, price.cacheCreationInputPer1M, price.cacheReadInputPer1M} && 0 <= bound
    ensures 0 <= input && 0 <= creation && 0 <= read && input + creation + read == bound
    ensures input * price.inputPer1M + creation * price.cacheCreationInputPer1M + read * price.cacheReadInputPer1M == bound * worst
  {
    if worst == price.inputPer1M {
      return bound, 0, 0;
    } else if worst == price.cacheCreationInputPer1M {
      return 0, bound, 0;
    } else {
      return 0, 0, bound;
    }
  }

  lemma SameSum(a: seq<WeightedTokens>, b: seq<WeightedTokens>)
    requires AllNonNegative(a) && AllNonNegative(b) && WeightedSum(a) == WeightedSum(b)
    ensures CostOf(a) == CostOf(b)
  {
  }

  /** Nothing smaller would do: some usage within the bounds costs exactly the frozen amount. */
  lemma ReservationIsTight(p: Pricing, model: string, maxOutput: int64) returns (input: int64, creation: int64, read: int64)
    requires ReservationCost(p, model, maxOutput).Ok?
    ensures 0 <= input && 0 <= creation && 0 <= read
    ensures input + creation + read == ReservationCost(p, model, maxOutput).value.1
    ensures CostUsageChecked(p, model, input, maxOutput, creation, read) == Ok(ReservationCost(p, model, maxOutput).value.0)
  {
    var policy := CheckedPolicy(p, model).value;
    var price := policy.price;
    var worst := Max(Max(price.inputPer1M, price.cacheCreationInputPer1M), price.cacheReadInputPer1M);
    input, creation, read := DearestSplit(price, policy.maxBillableInputTokens, worst);
    var all, split := [WeightedTokens(policy.maxBillableInputTokens, worst), WeightedTokens(maxOutput, price.outputPer1M)],
                      UsageParts(price, input, maxOutput, creation, read);
    PairSum(all[0], all[1]);
    UsageSum(price, input, maxOutput, creation, read);
    SameSum(all, split);
  }

  /** A total whose split is unknown is priced at the dearest of the four prices, and some split really costs that. */
  lemma TotalPrice(p: Pricing, model: string, total: int64)
    requires CheckedPolicy(p, model).Ok? && CheckedPolicy(p, model).value.price.Positive()
    ensures var price, cost := CheckedPolicy(p, model).value.price, ConservativeTotalCost(p, model, total);
      exists highest: int64 ::
        && IsHighest(highest, {price.inputPer1M, price.outputPer1M, price.cacheCreationInputPer1M, price.cacheReadInputPer1M})
        && (cost.Ok? <==> 0 <= total && CanRoundUp(total * highest))
        && (cost.Ok? ==> 0 <= cost.value && RoundsUp(cost.value, total * highest))
  {
    var price := CheckedPolicy(p, model).value.price;
    var highest := Max(Max(price.inputPer1M, price.outputPer1M), Max(price.cacheCreationInputPer1M, price.cacheReadInputPer1M));
    var parts := [WeightedTokens(total, highest), WeightedTokens(0, 0)];
    CostRoundsUp(parts);
    PairSum(parts[0], parts[1]);
    assert parts[0].tokens == total;
    assert IsHighest(highest, {price.inputPer1M, price.outputPer1M, price.cacheCreationInputPer1M, price.cacheReadInputPer1M});
  }

  // ---- the frozen amount covers the real cost ----

  lemma UsageSum(price: ModelPrice, input: int64, output: int64, creation: int64, read: int64)
    ensures WeightedSum(UsageParts(price, input, output, creation, read))
         == input * price.inputPer1M + output * price.outputPer1M
            + creation * price.cacheCreationInputPer1M + read * price.cacheReadInputPer1M
  {
    var ps := UsageParts(price, input, output, creation, read);
    assert WeightedSum([]) == 0;
    assert ps == [ps[0], ps[1], ps[2]] + [ps[3]];
    SumAppend([], ps[0]);
    SumAppend([ps[0]], ps[1]);
    SumAppend([ps[0], ps[1]], ps[2]);
    SumAppend([ps[0], ps[1], ps[2]], ps[3]);
    assert [] + [ps[0]] == [ps[0]] && [ps[0]] + [ps[1]] == [ps[0], ps[1]] && [ps[0], ps[1]] + [ps[2]] == [ps[0], ps[1], ps[2]];
  }

  lemma PairSum(a: WeightedTokens, b: WeightedTokens)
    ensures WeightedSum([a, b]) == a.tokens * a.price + b.tokens * b.price
  {
    SumAppend([], a);
    SumAppend([a], b);
    assert [] + [a] == [a] && [a] + [b] == [a, b];
  }

  lemma SumAppend(parts: seq<WeightedTokens>, last: WeightedTokens)
    ensures WeightedSum(parts + [last]) == WeightedSum(parts) + last.tokens * last.price
  {
    assert (parts + [last])[..|parts|] == parts;
  }

  /** Whatever part of the worst case was really used is priced, without overflow, at most at the worst case. */
  lemma Dominated(price: ModelPrice, input: int64, output: int64, creation: int64, read: int64,
                  worst: seq<WeightedTokens>)
    requires price.Positive() && 0 <= input && 0 <= output && 0 <= creation && 0 <= read
    requires CostOf(worst).Ok?
    requires WeightedSum(UsageParts(price, input, output, creation, read)) <= WeightedSum(worst)
    ensures CostOf(UsageParts(price, input, output, creation, read)).Ok?
    ensures CostOf(UsageParts(price, input, output, creation, read)).value <= CostOf(worst).value
  {
    assert AllNonNegative(UsageParts(price, input, output, creation, read));
  }

  lemma ReservationCoversUsage(p: Pricing, model: string, maxOutput: int64,
                               input: int64, output: int64, creation: int64, read: int64)
    requires ReservationCost(p, model, maxOutput).Ok?
    requires 0 <= input && 0 <= creation && 0 <= read && 0 <= output <= maxOutput
    requires input + creation + read <= ReservationCost(p, model, maxOutput).value.1
    ensures CostUsageChecked(p, model, input, output, creation, read).Ok?
    ensures CostUsageChecked(p, model, input, output, creation, read).value <= ReservationCost(p, model, maxOutput).value.0
  {
    var policy := CheckedPolicy(p, model).value;
    var price := policy.price;
    var w := Max(Max(price.inputPer1M, price.cacheCreationInputPer1M), price.cacheReadInputPer1M);
    var bound := policy.maxBillableInputTokens;
    var worst := [WeightedTokens(bound, w), WeightedTokens(maxOutput, price.outputPer1M)];
    PairSum(worst[0], worst[1]);
    UsageSum(price, input, output, creation, read);
    MulMonotoneRight(price.inputPer1M, w, input);
    MulMonotoneRight(price.cacheCreationInputPer1M, w, creation);
    MulMonotoneRight(price.cacheReadInputPer1M, w, read);
    MulMonotone(output, maxOutput, price.outputPer1M);
    MulMonotone(input + creation + read, bound, w);
    assert (input + creation + read) * w == input * w + creation * w + read * w;
    Dominated(price, input, output, creation, read, worst);
  }

  lemma MulMonotoneRight(x: int, y: int, z: int)
    requires x <= y && 0 <= z
    ensures z * x <= z * y
  {
  }

  lemma ConservativeTotalCoversEverySplit(p: Pricing, model: string, total: int64,
                                          input: int64, output: int64, creation: int64, read: int64)
    requires ConservativeTotalCost(p, model, total).Ok?
    requires 0 <= input && 0 <= output && 0 <= creation && 0 <= read
    requires input + output + creation + read == total
    ensures CostUsageChecked(p, model, input, output, creation, read).Ok?
    ensures CostUsageChecked(p, model, input, output, creation, read).value <= ConservativeTotalCost(p, model, total).value
  {
    var price := CheckedPolicy(p, model).value.price;
    var h := Max(Max(price.inputPer1M, price.outputPer1M), Max(price.cacheCreationInputPer1M, price.cacheReadInputPer1M));
    var worst := [WeightedTokens(total, h), WeightedTokens(0, 0)];
    PairSum(worst[0], worst[1]);
    UsageSum(price, input, output, creation, read);
    MulMonotoneRight(price.inputPer1M, h, input);
    MulMonotoneRight(price.outputPer1M, h, output);
    MulMonotoneRight(price.cacheCreationInputPer1M, h, creation);
    MulMonotoneRight(price.cacheReadInputPer1M, h, read);
    assert total * h == input * h + output * h + creation * h + read * h;
    Dominated(price, input, output, creation, read, worst);
  }

  /** A model that passes start-up validation can be reserved for every output limit a client is allowed to ask for,
      never for more than at the full limit. */
  lemma ValidatedModelIsAlwaysReservable(p: Pricing, model: string, requested: Option<int64>)
    requires NormalizeMaxOutput(p, model, None).Ok?
    requires ReservationCost(p, model, NormalizeMaxOutput(p, model, None).value).Ok?
    requires NormalizeMaxOutput(p, model, requested).Ok?
    ensures ReservationCost(p, model, NormalizeMaxOutput(p, model, requested).value).Ok?
    ensures ReservationCost(p, model, NormalizeMaxOutput(p, model, requested).value).value.0
         <= ReservationCost(p, model, NormalizeMaxOutput(p, model, None).value).value.0
    ensures 0 < ReservationCost(p, model, NormalizeMaxOutput(p, model, requested).value).value.0
  {
    var policy := CheckedPolicy(p, model).value;
    var price := policy.price;
    var w := Max(Max(price.inputPer1M, price.cacheCreationInputPer1M), price.cacheReadInputPer1M);
    var full := policy.maxOutputTokens;
    var asked := NormalizeMaxOutput(p, model, requested).value;
    var big := [WeightedTokens(policy.maxBillableInputTokens, w), WeightedTokens(full, price.outputPer1M)];
    var small := [WeightedTokens(policy.maxBillableInputTokens, w), WeightedTokens(asked, price.outputPer1M)];
    PairSum(big[0], big[1]);
    PairSum(small[0], small[1]);
    MulMonotone(asked, full, price.outputPer1M);
    MulMonotone(1, policy.maxBillableInputTokens, w);
    MulMonotone(1, asked, price.outputPer1M);
    assert AllNonNegative(small);
  }

  /** The completed form of a configured policy: token prices as they are, an unset cache price is the input price, an
      unset limit is the fallback's, or else the default. */
  ghost predicate Completes(policy: ModelPolicy, raw: ModelPolicy, fallback: ModelPolicy) {
    && policy.price.inputPer1M == raw.price.inputPer1M && policy.price.outputPer1M == raw.price.outputPer1M
    && CompletesField(policy.price.cacheCreationInputPer1M, raw.price.cacheCreationInputPer1M, raw.price.inputPer1M)
    && CompletesField(policy.price.cacheReadInputPer1M, raw.price.cacheReadInputPer1M, raw.price.inputPer1M)
    && CompletesLimit(policy.maxBillableInputTokens, raw.maxBillableInputTokens, fallback.maxBillableInputTokens, 128_000)
    && CompletesLimit(policy.maxOutputTokens, raw.maxOutputTokens, fallback.maxOutputTokens, 4_096)
  }

  ghost predicate CompletesField(v: int64, raw: int64, default: int64) { (raw > 0 ==> v == raw) && (raw <= 0 ==> v == default) }

  ghost predicate CompletesLimit(v: int64, raw: int64, fallback: int64, default: int64) {
    CompletesField(v, raw, if fallback > 0 then fallback else default)
  }

  /** Without strict mode every model has a policy, its own or the fallback, completed; strict mode serves exactly the
      explicitly configured models, unchanged. */
  lemma ConstructorsBoundEveryModel(models: map<string, ModelPolicy>, fallback: ModelPolicy, model: string)
    ensures CheckedPolicy(NewPricing(models, fallback), model).Ok?
    ensures var policy := CheckedPolicy(NewPricing(models, fallback), model).value;
      && 0 < policy.maxOutputTokens && 0 < policy.maxBillableInputTokens
      && (policy.price.Positive() <==> 0 < policy.price.inputPer1M && 0 < policy.price.outputPer1M)
      && (model in models ==> Completes(policy, models[model], fallback))
      && (model !in models ==> Completes(policy, fallback, fallback))
    ensures CheckedPolicy(NewStrictPricing(models, fallback), model).Ok? <==> model in models && Explicit(models[model])
    ensures model in models && Explicit(models[model]) ==> CheckedPolicy(NewStrictPricing(models, fallback), model).value == models[model]
  {
  }

  /** Strict mode refuses a model that is not configured as unknown, and one that leaves a price or a limit open as invalid. */
  lemma StrictRefusals(models: map<string, ModelPolicy>, fallback: ModelPolicy, model: string)
    ensures var policy := CheckedPolicy(NewStrictPricing(models, fallback), model);
      && (policy == Err(UnknownModelPolicy) <==> model !in models)
      && (policy == Err(InvalidTokenLimit) <==>
            model in models && var m := models[model];
            || m.price.inputPer1M <= 0 || m.price.outputPer1M <= 0 || m.price.cacheCreationInputPer1M <= 0
            || m.price.cacheReadInputPer1M <= 0 || m.maxBillableInputTokens <= 0 || m.maxOutputTokens <= 0)
      && policy != Err(CostOverflow)
  {
  }

  /** A refused model is refused with the same error wherever it is priced. */
  lemma RefusedEverywhere(p: Pricing, model: string, n: int64, asked: Option<int64>, usage: (int64, int64, int64, int64))
    requires CheckedPolicy(p, model).Err?
    ensures var e := CheckedPolicy(p, model).error;
      && ReservationCost(p, model, n) == Err(e) && NormalizeMaxOutput(p, model, asked) == Err(e)
      && CostUsageChecked(p, model, usage.0, usage.1, usage.2, usage.3) == Err(e) && ConservativeTotalCost(p, model, n) == Err(e)
  {
  }

  /** A client's output limit is taken as it is when it is positive and within the model's, which is the one used when the
      client gives none; every other request is refused. */
  lemma AcceptedOutputs(p: Pricing, model: string, requested: Option<int64>)
    requires CheckedPolicy(p, model).Ok? && 0 < CheckedPolicy(p, model).value.maxOutputTokens
    ensures var limit, accepted := CheckedPolicy(p, model).value.maxOutputTokens, NormalizeMaxOutput(p, model, requested);
      match requested
      case None => accepted == Ok(limit)
      case Some(n) => accepted == if 0 < n <= limit then Ok(n) else Err(InvalidTokenLimit)
  {
  }
}
