/** The usage field of the OpenAI wire format, in both directions. */
module OpenAIUsage {
  import opened Int64
  import opened Canonical
  import opened Settlement

  /** Each field may be missing; cached counts the prompt tokens read from a cache. */
  datatype WireUsage = WireUsage(prompt: Option<int64>, completion: Option<int64>, total: Option<int64>, cached: Option<int64>)

  function UsageFromWire(wire: Option<WireUsage>): Option<Usage> {
    if wire.None? then None
    else
      var w := wire.value;
      var input :=
        if w.prompt.None? then NO_USAGE.(cacheRead := if w.cached.Some? then w.cached.value else 0)
        else if w.cached.None? then NO_USAGE.(inputTokens := w.prompt.value, inputKnown := true)
        else if w.cached.value < 0 || w.cached.value > w.prompt.value
        then NO_USAGE.(inputTokens := w.prompt.value, inputKnown := true, cacheRead := -1)
        else NO_USAGE.(inputTokens := w.prompt.value - w.cached.value, inputKnown := true, cacheRead := w.cached.value);
      var output := if w.completion.Some? then input.(outputTokens := w.completion.value, outputKnown := true) else input;
      Some(if w.total.Some? then output.(reportedTotal := w.total.value, totalKnown := true) else output)
  }

  function PromptTotal(u: Usage): Option<int64> {
    if u.inputKnown then TokenSum([u.inputTokens, u.cacheCreation, u.cacheRead]) else None
  }

  function ReportedTotal(u: Usage, prompt: Option<int64>): Option<int64> {
    if u.totalKnown then Some(u.reportedTotal)
    else if prompt.Some? && u.outputKnown && u.outputTokens >= 0 && prompt.value <= MAX_INT64 - u.outputTokens
    then Some(prompt.value + u.outputTokens)
    else None
  }

  function UsageToWire(u: Usage): Option<WireUsage> {
    var prompt := PromptTotal(u);
    var cached := if prompt.Some? && u.cacheRead > 0 then Some(u.cacheRead) else None;
    var completion := if u.outputKnown then Some(u.outputTokens) else None;
    var total := ReportedTotal(u, prompt);
    if prompt.None? && completion.None? && total.None? then None else Some(WireUsage(prompt, completion, total, cached))
  }

  /** A cached count that contradicts the prompt count is never settled exactly. */
  lemma ConflictingCacheIsNotExact(w: WireUsage)
    requires w.prompt.Some? && w.cached.Some? && !(0 <= w.cached.value <= w.prompt.value)
    ensures !UsageReadyForExactSettlement(UsageFromWire(Some(w)).value)
  {
    var u := UsageFromWire(Some(w)).value;
    assert [u.cacheCreation, u.cacheRead][1] == -1;
    assert !NoneNegative([u.cacheCreation, u.cacheRead]);
  }

  /** What a client of the OpenAI format is told: the prompt is known exactly when the input and its cache counts make a
      sum, and it is that sum; read back, the cache reads and the output are the same and no token is lost or invented. */
  lemma UsageThroughTheWire(u: Usage)
    requires UsageToWire(u).Some?
    ensures var back := UsageFromWire(UsageToWire(u)).value;
      && (back.inputKnown <==> PromptTotal(u).Some?)
      && (back.inputKnown ==> back.inputTokens + back.cacheRead == u.inputTokens + u.cacheCreation + u.cacheRead
                              && back.inputTokens >= 0 && back.cacheRead == u.cacheRead)
      && back.cacheCreation == 0
      && back.outputKnown == u.outputKnown && (u.outputKnown ==> back.outputTokens == u.outputTokens)
      && (u.totalKnown ==> back.totalKnown && back.reportedTotal == u.reportedTotal)
      && (back.totalKnown && !u.totalKnown ==> back.reportedTotal == back.inputTokens + back.cacheRead + back.outputTokens)
  {
    var parts := [u.inputTokens, u.cacheCreation, u.cacheRead];
    SmallSums(u.inputTokens, u.cacheCreation, u.cacheRead);
    if PromptTotal(u).Some? {
      assert NoneNegative(parts) && parts[0] == u.inputTokens && parts[1] == u.cacheCreation && parts[2] == u.cacheRead;
    }
  }

  /** What a usage on the wire is read as: each count known iff it is there; a cached count within the prompt is taken out of
      it, and one that contradicts it is negative, which no charge is exact for. */
  lemma WireUsageIsRead(w: WireUsage)
    ensures var u := UsageFromWire(Some(w)).value;
      && u.inputKnown == w.prompt.Some? && u.outputKnown == w.completion.Some? && u.totalKnown == w.total.Some?
      && u.outputTokens == (if w.completion.Some? then w.completion.value else 0)
      && u.reportedTotal == (if w.total.Some? then w.total.value else 0)
      && u.cacheCreation == 0
      && match (w.prompt, w.cached)
         case (None, None) => u.inputTokens == 0 && u.cacheRead == 0
         case (None, Some(cached)) => u.inputTokens == 0 && u.cacheRead == cached
         case (Some(prompt), None) => u.inputTokens == prompt && u.cacheRead == 0
         case (Some(prompt), Some(cached)) =>
           if 0 <= cached <= prompt then u.inputTokens + u.cacheRead == prompt && u.cacheRead == cached
           else u.inputTokens == prompt && u.cacheRead == -1
    ensures UsageFromWire(None) == None
  {
  }

  /** Nothing is written exactly when no count is known to write, and a total that was not reported is never negative. */
  lemma NothingToWriteIff(u: Usage)
    ensures UsageToWire(u) == None <==>
      !(u.inputKnown && 0 <= u.inputTokens && 0 <= u.cacheCreation && 0 <= u.cacheRead
        && u.inputTokens + u.cacheCreation + u.cacheRead <= MAX_INT64) && !u.outputKnown && !u.totalKnown
    ensures UsageToWire(u).Some? && UsageToWire(u).value.cached.Some? ==> 0 < UsageToWire(u).value.cached.value
  {
    TripleBounds(u.inputTokens, u.cacheCreation, u.cacheRead);
  }
}
