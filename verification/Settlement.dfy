/** From a reported usage, possibly partial or contradictory, to the amount that is charged. */
module Settlement {
  import opened Int64
  import opened Pricing
  import opened Canonical

  // ---- checked sum of token counts (one copy in the stream code, one in billing) ----

  function Sum(values: seq<int64>): int {
    if values == [] then 0 else Sum(values[..|values| - 1]) + values[|values| - 1]
  }

  predicate NoneNegative(values: seq<int64>) {
    forall i | 0 <= i < |values| :: 0 <= values[i]
  }

  /** The sum when no value is negative and it fits int64. */
  function TokenSum(values: seq<int64>): Option<int64> {
    if NoneNegative(values) && MIN_INT64 <= Sum(values) <= MAX_INT64 then Some(Sum(values)) else None
  }

  lemma {:induction false} PrefixTokenSum(values: seq<int64>, k: nat)
    requires k <= |values| && NoneNegative(values)
    ensures 0 <= Sum(values[..k]) <= Sum(values)
    decreases |values|
  {
    if k == |values| {
      assert values[..k] == values;
      if values != [] {
        PrefixTokenSum(values[..k - 1], k - 1);
        assert values[..k - 1][..k - 1] == values[..k - 1];
      }
    } else {
      PrefixTokenSum(values[..|values| - 1], k);
      assert values[..|values| - 1][..k] == values[..k];
    }
  }

  method CheckedTokenSum(values: seq<int64>) returns (r: Option<int64>)
    ensures r == TokenSum(values)
  {
    var total: int64 := 0;
    for i := 0 to |values|
      invariant NoneNegative(values[..i])
      invariant 0 <= total == Sum(values[..i])
    {
      var value := values[i];
      assert values[..i + 1][..i] == values[..i];
      if value < 0 || total > MAX_INT64 - value {
        if NoneNegative(values) { PrefixTokenSum(values, i + 1); }
        return None;
      }
      total := total + value;
    }
    assert values[..|values|] == values;
    return Some(total);
  }

  lemma SmallSums(a: int64, b: int64, c: int64)
    ensures Sum([a]) == a && Sum([a, b]) == a + b && Sum([a, b, c]) == a + b + c
  {
    assert [a][..0] == [] && [a, b][..1] == [a] && [a, b, c][..2] == [a, b];
  }

  // ---- the two analyses of a usage ----

  /** Whether a usage determines both the input and the output count, without contradiction. */
  predicate UsageReadyForExactSettlement(u: Usage) {
    var cache := TokenSum([u.cacheCreation, u.cacheRead]);
    if cache.None? then false
    else if u.totalKnown && u.reportedTotal < 0 then false
    else if u.totalKnown && u.inputKnown && u.outputKnown then
      TokenSum([u.inputTokens, cache.value, u.outputTokens]) == Some(u.reportedTotal)
      && BothSidesReady(u.inputTokens, u.outputTokens, cache.value)
    else if u.totalKnown && u.inputKnown then
      var known := TokenSum([u.inputTokens, cache.value]);
      known.Some? && known.value <= u.reportedTotal
      && BothSidesReady(u.inputTokens, u.reportedTotal - known.value, cache.value)
    else if u.totalKnown && u.outputKnown then
      var known := TokenSum([u.outputTokens, cache.value]);
      known.Some? && known.value <= u.reportedTotal
      && BothSidesReady(u.reportedTotal - known.value, u.outputTokens, cache.value)
    else if u.totalKnown then false
    else u.inputKnown && u.outputKnown && BothSidesReady(u.inputTokens, u.outputTokens, cache.value)
  }

  predicate BothSidesReady(input: int, output: int, cache: int64) {
    0 <= input <= MAX_INT64 && 0 <= output <= MAX_INT64 && TokenSum([input, cache, output]).Some?
  }

  datatype Charge = Charge(cost: int64, input: int64, output: int64, complete: bool, estimated: bool)

  function Frozen(amount: int64, input: int64, output: int64): Charge { Charge(amount, input, output, false, true) }

  /** Billing's case analysis: exact when both sides are known or derivable, otherwise an upper bound. */
  function SettlementCost(p: Pricing, model: string, amount: int64, u: Usage): Charge {
    var cache := TokenSum([u.cacheCreation, u.cacheRead]);
    if cache.None? then Frozen(amount, u.inputTokens, u.outputTokens)
    else if !u.totalKnown then
      if u.inputKnown && u.outputKnown then Exact(p, model, amount, u, u.inputTokens, u.outputTokens)
      else Frozen(amount, u.inputTokens, u.outputTokens)
    else if u.reportedTotal < cache.value then Frozen(amount, u.inputTokens, u.outputTokens)
    else if u.inputKnown && u.outputKnown then
      if TokenSum([u.inputTokens, cache.value, u.outputTokens]) == Some(u.reportedTotal)
      then Exact(p, model, amount, u, u.inputTokens, u.outputTokens)
      else Frozen(amount, u.inputTokens, u.outputTokens)
    else if u.inputKnown then
      var known := TokenSum([u.inputTokens, cache.value]);
      if known.None? || u.reportedTotal < known.value then Frozen(amount, u.inputTokens, u.outputTokens)
      else SumBounds(u.inputTokens, cache.value); Exact(p, model, amount, u, u.inputTokens, u.reportedTotal - known.value)
    else if u.outputKnown then
      var known := TokenSum([u.outputTokens, cache.value]);
      if known.None? || u.reportedTotal < known.value then Frozen(amount, u.inputTokens, u.outputTokens)
      else SumBounds(u.outputTokens, cache.value); Exact(p, model, amount, u, u.reportedTotal - known.value, u.outputTokens)
    else
      match ConservativeTotalCost(p, model, u.reportedTotal)
      case Err(_) => Charge(amount, 0, 0, false, true)
      case Ok(cost) => Charge(cost, 0, 0, false, true)
  }

  function Exact(p: Pricing, model: string, amount: int64, u: Usage, input: int64, output: int64): Charge {
    if input < 0 || output < 0 then Frozen(amount, input, output)
    else match CostUsageChecked(p, model, input, output, u.cacheCreation, u.cacheRead)
         case Err(_) => Frozen(amount, input, output)
         case Ok(cost) => Charge(cost, input, output, true, false)
  }

  lemma SumBounds(a: int64, b: int64)
    requires TokenSum([a, b]).Some?
    ensures 0 <= a && 0 <= b && TokenSum([a, b]).value == a + b
  {
    SmallSums(a, b, 0);
    assert [a, b][0] == a && [a, b][1] == b;
  }

  lemma TripleBounds(a: int64, b: int64, c: int64)
    ensures TokenSum([a, b, c]) == if 0 <= a && 0 <= b && 0 <= c && a + b + c <= MAX_INT64 then Some((a + b + c) as int64) else None
    ensures TokenSum([a, b]) == if 0 <= a && 0 <= b && a + b <= MAX_INT64 then Some((a + b) as int64) else None
  {
    SmallSums(a, b, c);
    var three, two := [a, b, c], [a, b];
    assert three[0] == a && three[1] == b && three[2] == c && two[0] == a && two[1] == b;
  }

  /** Four positive prices make the price check subsume the token sum the stream code checks separately. */
  lemma PricedTokensFit(price: ModelPrice, input: int64, output: int64, creation: int64, read: int64)
    requires price.Positive() && 0 <= input && 0 <= output && 0 <= creation && 0 <= read
    requires CostOf(UsageParts(price, input, output, creation, read)).Ok?
    ensures input + output + creation + read <= MAX_INT64
  {
    UsageSum(price, input, output, creation, read);
    MulMonotoneRight(1, price.inputPer1M, input);
    MulMonotoneRight(1, price.outputPer1M, output);
    MulMonotoneRight(1, price.cacheCreationInputPer1M, creation);
    MulMonotoneRight(1, price.cacheReadInputPer1M, read);
  }

  ghost predicate Sellable(p: Pricing, model: string) {
    CheckedPolicy(p, model).Ok? && CheckedPolicy(p, model).value.price.Positive()
  }

  /** Billing settles exactly iff the stream code calls the usage ready and the price does not overflow; the counts
      it then charges are non-negative, extend what was reported and add up to the reported total. */
  lemma UsageAnalysesAgree(p: Pricing, model: string, amount: int64, u: Usage)
    requires Sellable(p, model)
    ensures var c := SettlementCost(p, model, amount, u);
      && (c.complete <==> UsageReadyForExactSettlement(u)
                          && CostUsageChecked(p, model, c.input, c.output, u.cacheCreation, u.cacheRead).Ok?)
      && c.estimated == !c.complete
      && (c.complete ==>
           && 0 <= c.input && 0 <= c.output && 0 <= u.cacheCreation && 0 <= u.cacheRead
           && (u.inputKnown ==> c.input == u.inputTokens) && (u.outputKnown ==> c.output == u.outputTokens)
           && (u.totalKnown ==> c.input + c.output + u.cacheCreation + u.cacheRead == u.reportedTotal)
           && Ok(c.cost) == CostUsageChecked(p, model, c.input, c.output, u.cacheCreation, u.cacheRead))
  {
    TripleBounds(u.cacheCreation, u.cacheRead, 0);
    if 0 <= u.cacheCreation && 0 <= u.cacheRead && u.cacheCreation + u.cacheRead <= MAX_INT64 {
      var cache: int64 := u.cacheCreation + u.cacheRead;
      TripleBounds(u.inputTokens, cache, u.outputTokens);
      TripleBounds(u.outputTokens, cache, 0);
      var c := SettlementCost(p, model, amount, u);
      TripleBounds(c.input, cache, c.output);
      if 0 <= c.input && 0 <= c.output
         && CostUsageChecked(p, model, c.input, c.output, u.cacheCreation, u.cacheRead).Ok? {
        PricedTokensFit(CheckedPolicy(p, model).value.price, c.input, c.output, u.cacheCreation, u.cacheRead);
      }
    }
  }

  // ---- the charge of every report ----

  predicate CacheFits(u: Usage) { 0 <= u.cacheCreation && 0 <= u.cacheRead && u.cacheCreation + u.cacheRead <= MAX_INT64 }

  predicate BothReported(u: Usage) {
    && CacheFits(u) && u.inputKnown && u.outputKnown && 0 <= u.inputTokens && 0 <= u.outputTokens
    && u.inputTokens + u.cacheCreation + u.cacheRead + u.outputTokens <= MAX_INT64
    && (u.totalKnown ==> u.inputTokens + u.cacheCreation + u.cacheRead + u.outputTokens == u.reportedTotal)
  }

  predicate OutputFollows(u: Usage) {
    && CacheFits(u) && u.totalKnown && u.inputKnown && !u.outputKnown
    && 0 <= u.inputTokens && u.inputTokens + u.cacheCreation + u.cacheRead <= u.reportedTotal
  }

  predicate InputFollows(u: Usage) {
    && CacheFits(u) && u.totalKnown && !u.inputKnown && u.outputKnown
    && 0 <= u.outputTokens && u.outputTokens + u.cacheCreation + u.cacheRead <= u.reportedTotal
  }

  predicate TotalAlone(u: Usage) {
    CacheFits(u) && u.totalKnown && !u.inputKnown && !u.outputKnown && u.cacheCreation + u.cacheRead <= u.reportedTotal
  }

  /** The input and output counts a report stands for: those reported, unless one follows from the total, or only the
      total is known. */
  function InputOf(u: Usage): int {
    if InputFollows(u) then u.reportedTotal - u.outputTokens - u.cacheCreation - u.cacheRead
    else if TotalAlone(u) then 0 else u.inputTokens
  }

  function OutputOf(u: Usage): int {
    if OutputFollows(u) then u.reportedTotal - u.inputTokens - u.cacheCreation - u.cacheRead
    else if TotalAlone(u) then 0 else u.outputTokens
  }

  predicate Determined(u: Usage) { BothReported(u) || OutputFollows(u) || InputFollows(u) }

  function WorthOf(price: ModelPrice, u: Usage): int {
    Millionths(price, InputOf(u), OutputOf(u), u.cacheCreation, u.cacheRead)
  }

  function Dearest(price: ModelPrice): int64 {
    Max(Max(price.inputPer1M, price.outputPer1M), Max(price.cacheCreationInputPer1M, price.cacheReadInputPer1M))
  }

  lemma ReadyIffDetermined(u: Usage)
    ensures UsageReadyForExactSettlement(u) <==> Determined(u)
  {
    TripleBounds(u.cacheCreation, u.cacheRead, 0);
    if CacheFits(u) {
      var cache: int64 := u.cacheCreation + u.cacheRead;
      TripleBounds(u.inputTokens, cache, u.outputTokens);
      TripleBounds(u.outputTokens, cache, 0);
      if OutputFollows(u) { TripleBounds(u.inputTokens, cache, OutputOf(u)); }
      if InputFollows(u) { TripleBounds(InputOf(u), cache, u.outputTokens); }
    }
  }

  lemma ChargedCounts(p: Pricing, model: string, amount: int64, u: Usage)
    ensures var c := SettlementCost(p, model, amount, u);
      c.input == InputOf(u) && c.output == OutputOf(u) && c.estimated == !c.complete
  {
    TripleBounds(u.cacheCreation, u.cacheRead, 0);
    if CacheFits(u) {
      var cache: int64 := u.cacheCreation + u.cacheRead;
      TripleBounds(u.inputTokens, cache, u.outputTokens);
      TripleBounds(u.outputTokens, cache, 0);
    }
  }

  /** What every report, however partial or contradictory, is charged: a determined one its worth rounded up, a total alone
      as if every token had the dearest price, and anything else, or anything whose worth does not fit, the frozen amount. */
  lemma ChargeOfEveryReport(p: Pricing, model: string, amount: int64, u: Usage)
    requires Sellable(p, model)
    ensures var c, price := SettlementCost(p, model, amount, u), CheckedPolicy(p, model).value.price;
      && c.input == InputOf(u) && c.output == OutputOf(u) && c.estimated == !c.complete
      && (c.complete <==> Determined(u) && CanRoundUp(WorthOf(price, u)))
      && (c.complete ==> RoundsUp(c.cost, WorthOf(price, u)))
      && (TotalAlone(u) && CanRoundUp(u.reportedTotal * Dearest(price)) ==> RoundsUp(c.cost, u.reportedTotal * Dearest(price)))
      && (!c.complete && !(TotalAlone(u) && CanRoundUp(u.reportedTotal * Dearest(price))) ==> c.cost == amount)
  {
    UsageAnalysesAgree(p, model, amount, u);
    ReadyIffDetermined(u);
    ChargedCounts(p, model, amount, u);
    var c, price := SettlementCost(p, model, amount, u), CheckedPolicy(p, model).value.price;
    UsagePrice(p, model, c.input, c.output, u.cacheCreation, u.cacheRead);
    TripleBounds(u.cacheCreation, u.cacheRead, 0);
    if TotalAlone(u) {
      var parts := [WeightedTokens(u.reportedTotal, Dearest(price)), WeightedTokens(0, 0)];
      CostRoundsUp(parts);
      PairSum(parts[0], parts[1]);
    } else {
      NoTotalPrice(p, model, amount, u);
    }
  }

  lemma NoTotalPrice(p: Pricing, model: string, amount: int64, u: Usage)
    requires !TotalAlone(u)
    ensures var c := SettlementCost(p, model, amount, u); !c.complete ==> c.cost == amount
  {
    TripleBounds(u.cacheCreation, u.cacheRead, 0);
  }

  /** Whatever is reported, nobody is ever charged a negative amount. */
  lemma ChargesAreNonNegative(p: Pricing, model: string, amount: int64, u: Usage)
    requires 0 <= amount && Sellable(p, model)
    ensures 0 <= SettlementCost(p, model, amount, u).cost
  {
    var c := SettlementCost(p, model, amount, u);
    var price := CheckedPolicy(p, model).value.price;
    var highest := Max(Max(price.inputPer1M, price.outputPer1M), Max(price.cacheCreationInputPer1M, price.cacheReadInputPer1M));
    CostIsNonNegative(UsageParts(price, c.input, c.output, u.cacheCreation, u.cacheRead));
    CostIsNonNegative([WeightedTokens(u.reportedTotal, highest), WeightedTokens(0, 0)]);
  }

  lemma CostIsNonNegative(parts: seq<WeightedTokens>)
    ensures CostOf(parts).Ok? ==> 0 <= CostOf(parts).value
  {
    if CostOf(parts).Ok? { NonNegativeSum(parts); }
  }

  // ---- what was really consumed is never undercharged ----

  datatype Consumed = Consumed(input: int64, output: int64, creation: int64, read: int64)

  /** A report that is partial but not wrong about the real consumption. */
  ghost predicate TruthfulReport(u: Usage, t: Consumed) {
    && 0 <= t.input && 0 <= t.output && 0 <= t.creation && 0 <= t.read
    && u.cacheCreation == t.creation && u.cacheRead == t.read
    && (u.inputKnown ==> u.inputTokens == t.input)
    && (u.outputKnown ==> u.outputTokens == t.output)
    && (u.totalKnown ==> u.reportedTotal == t.input + t.output + t.creation + t.read)
  }

  /** A request whose real consumption stays within what was reserved for it. */
  ghost predicate WithinReservation(p: Pricing, model: string, maxOutput: int64, amount: int64, t: Consumed) {
    && ReservationCost(p, model, maxOutput).Ok? && ReservationCost(p, model, maxOutput).value.0 <= amount
    && t.output <= maxOutput && t.input + t.creation + t.read <= ReservationCost(p, model, maxOutput).value.1
  }

  lemma NeverBelowThePrice(p: Pricing, model: string, maxOutput: int64, amount: int64, u: Usage, t: Consumed)
    requires WithinReservation(p, model, maxOutput, amount, t) && TruthfulReport(u, t)
    ensures CostUsageChecked(p, model, t.input, t.output, t.creation, t.read).Ok?
    ensures CostUsageChecked(p, model, t.input, t.output, t.creation, t.read).value <= SettlementCost(p, model, amount, u).cost
    ensures SettlementCost(p, model, amount, u).complete
        ==> SettlementCost(p, model, amount, u).cost == CostUsageChecked(p, model, t.input, t.output, t.creation, t.read).value
    ensures SettlementCost(p, model, amount, u).complete
        <==> (u.inputKnown && u.outputKnown) || (u.totalKnown && (u.inputKnown || u.outputKnown))
    ensures SettlementCost(p, model, amount, u).complete ==> SettlementCost(p, model, amount, u).cost <= amount
    ensures !u.totalKnown && !(u.inputKnown && u.outputKnown) ==> SettlementCost(p, model, amount, u).cost == amount
    ensures t.input + t.output + t.creation + t.read <= MAX_INT64
  {
    ReservationCoversUsage(p, model, maxOutput, t.input, t.output, t.creation, t.read);
    PricedTokensFit(CheckedPolicy(p, model).value.price, t.input, t.output, t.creation, t.read);
    var cache: int64 := t.creation + t.read;
    TripleBounds(t.creation, t.read, 0);
    if (u.inputKnown && u.outputKnown) || (u.totalKnown && (u.inputKnown || u.outputKnown)) {
      DerivableReportIsExact(p, model, amount, u, t, cache);
    } else if u.totalKnown && ConservativeTotalCost(p, model, u.reportedTotal).Ok? {
      ConservativeTotalCoversEverySplit(p, model, u.reportedTotal, t.input, t.output, t.creation, t.read);
    }
  }

  /** For every true partial report, the charge is at least the worth of the real consumption, and that worth rounded up
      when complete; both sides known always completes, and nothing derivable charges the whole frozen amount. */
  lemma SettlementNeverUndercharges(p: Pricing, model: string, maxOutput: int64, amount: int64, u: Usage, t: Consumed)
    requires WithinReservation(p, model, maxOutput, amount, t) && TruthfulReport(u, t)
    ensures var c, worth := SettlementCost(p, model, amount, u),
                            Millionths(CheckedPolicy(p, model).value.price, t.input, t.output, t.creation, t.read);
      && worth <= c.cost * 1_000_000
      && (c.complete ==> RoundsUp(c.cost, worth))
      && (c.complete <==> (u.inputKnown && u.outputKnown) || (u.totalKnown && (u.inputKnown || u.outputKnown)))
      && (!u.totalKnown && !(u.inputKnown && u.outputKnown) ==> c.cost == amount)
  {
    NeverBelowThePrice(p, model, maxOutput, amount, u, t);
    UsagePrice(p, model, t.input, t.output, t.creation, t.read);
  }

  lemma DerivableReportIsExact(p: Pricing, model: string, amount: int64, u: Usage, t: Consumed, cache: int64)
    requires TruthfulReport(u, t) && cache == t.creation + t.read && t.input + cache + t.output <= MAX_INT64
    requires (u.inputKnown && u.outputKnown) || (u.totalKnown && (u.inputKnown || u.outputKnown))
    ensures SettlementCost(p, model, amount, u) == Exact(p, model, amount, u, t.input, t.output)
  {
    TripleBounds(t.creation, t.read, 0);
    TripleBounds(t.input, cache, t.output);
    TripleBounds(t.output, cache, 0);
  }

  /** Clearing the three known flags, as every inexact stream ending does, charges exactly the frozen amount. */
  lemma UnknownUsageChargesTheReservation(p: Pricing, model: string, amount: int64, u: Usage)
    requires !u.inputKnown && !u.outputKnown && !u.totalKnown
    ensures SettlementCost(p, model, amount, u) == Frozen(amount, u.inputTokens, u.outputTokens)
  {
  }

  /** A true in-bounds report is charged above the frozen amount, so that settling fails and the reservation stays
      in flight, iff only its total is known and the dearest price times that total exceeds the amount. */
  lemma ChargeExceedsReservationIff(p: Pricing, model: string, maxOutput: int64, amount: int64, u: Usage, t: Consumed)
    requires WithinReservation(p, model, maxOutput, amount, t) && TruthfulReport(u, t)
    ensures var worth := u.reportedTotal * Dearest(CheckedPolicy(p, model).value.price);
      SettlementCost(p, model, amount, u).cost > amount
      <==> u.totalKnown && !u.inputKnown && !u.outputKnown && CanRoundUp(worth) && worth > amount * 1_000_000
  {
    NeverBelowThePrice(p, model, maxOutput, amount, u, t);
    ChargeOfEveryReport(p, model, amount, u);
  }

  /** Such a report exists: 100 input and 20 output tokens, exactly the reserved bounds, reported as 120. */
  lemma HonestTotalAloneCanExceedTheReservation()
    ensures var price := ModelPrice(1_000_000, 2_000_000, 1_000_000, 1_000_000);
      var p := Pricing(map["m" := ModelPolicy(price, 100, 20)], ModelPolicy(price, 100, 20), false, {});
      var u := NO_USAGE.(reportedTotal := 120, totalKnown := true);
      ReservationCost(p, "m", 20) == Ok((140, 100))
      && WithinReservation(p, "m", 20, 140, Consumed(100, 20, 0, 0)) && TruthfulReport(u, Consumed(100, 20, 0, 0))
      && SettlementCost(p, "m", 140, u).cost == 240
  {
    PairSum(WeightedTokens(100, 1_000_000), WeightedTokens(20, 2_000_000));
    PairSum(WeightedTokens(120, 2_000_000), WeightedTokens(0, 0));
    TripleBounds(0, 0, 0);
  }
}
